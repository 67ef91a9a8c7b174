# EchoMuse controller: models and proofs

A Dafny model of the parts of the EchoMuse controller that keep state and carry promises: the uplink audio
timelines, the attributor and the endpoint reducer, delivery of alerts to a device, the write-ahead journal
of calendar operations, the recording tap, streamed recordings and their recovery, and the two wire codecs.

`dafny verify dfyconfig.toml` checks everything.

| file | modules | the system's part |
|---|---|---|
| `Basics.dfy` | `Basics`, `Slots` | options and results, the wire's sizes; arithmetic of `index % capacity` |
| `Intervals.dfy` | `Intervals` | the sorted, merged interval set |
| `Rings.dfy` | `RingSpec`, `Rings` | the sample ring, and the first-copy-wins map that every ring refines |
| `Records.dfy` | `Records` | the rings of cell records and of AFE records |
| `VadTrack.dfy` | `VadTracks` | the newest-wins ring of Silero probabilities |
| `Reference.dfy` | `ReferenceSpec`, `References` | several reference epochs packed into one ring |
| `Epochs.dfy` | `Epochs` | that those epochs stay readable, with the first copies, until the floor passes them |
| `Streams.dfy` | `StreamSpec`, `Streams` | stream epochs, packet order and backfill grants |
| `Accepting.dfy` | `Accepting` | exactly which packets are accepted, told from the accepted ones |
| `Retention.dfy` | `RetentionSpec` | what one subscription keeps while an utterance is open |
| `Rolling.dfy` | `RollingSpec` | exactly what retaining keeps, and the rolling seconds while no utterance is open |
| `Codec.dfy` | `ByteFields`, `Codec` | EMA1 frames, byte by byte |
| `Frames.dfy` | `Frames` | exactly which frames are accepted, by kind, size and offset |
| `Attribution.dfy` | `AttributionSpec`, `Traces`, `Attributors` | labelling cells: runs, guard, runs under way |
| `Labels.dfy` | `Labelling` | the label that each cell must have, from evidence, levels and the open run |
| `Endpoint.dfy` | `EndpointSpec`, `Endpoints`, `Turns` | when an utterance commits or closes; attributor and reducer together |
| `Routes.dfy` | `Routing` | the answer that each step must give, with counts of cells |
| `Delivery.dfy` | `DeliverySpec`, `DeliveryProtocol`, `AlertDelivery` | snapshots, deltas and acks between controller and device |
| `Recovering.dfy` | `Recovering` | that a device which lacks something is brought up to date |
| `Journal.dfy` | `JournalSpec`, `JournalProtocol` | the journal's worker against the calendar |
| `Verdicts.dfy` | `Verdicts`, `Finishing` | why an operation is rejected, and that it otherwise gets done |
| `OneEvent.dfy` | `OneEvent` | how many events an operation makes |
| `RestoreGuard.dfy` | `RestoreGuard`, `AlertJournals` | the restore guard and its order; the journal's table and an endpoint's view of its calendar |
| `Unhidden.dfy` | `Unhidden` | when an alarm that was dealt with can be live again |
| `Rearming.dfy` | `Rearming` | journal and delivery side by side: nothing dealt with is armed again |
| `Disowned.dfy` | `Disowned` | a failed snooze whose delivered child is taken back |
| `Matching.dfy` | `OrderedDicts`, `Matching` | pairing tap periods with AFE records that come in either order |
| `AfeTrack.dfy` | `TrackSpec`, `TapOrder`, `AfeTracks` | the recording tap's bounded window of such pairs, and when its blocks and records may come in any order |
| `Expiring.dfy` | `Expiring` | which record each tap period shows when periods give up and records are pushed out |
| `Recorder.dfy` | `WavFiles`, `Recordings` | a recording streamed to disk, killed anywhere, recovered |
| `Description.dfy` | `Description` | the line in a calendar event's description |

Code that changes state in place is a class here with the same fields (`IntervalSet`, `SampleTimeline`,
`RecordTimeline`, `VadTrack`, `ReferenceTimeline`, `StreamRegistry`, `Attributor`, `EndpointReducer`,
`AlertEndpoint`, `Journal`, `AlarmCalendar`, `AfeTrack`, `Recorder`). Each method is proved equal to a
function on values, or to a plain statement of its result, and the theorems are about those functions over
all runs. The two distributed protocols are state machines: one step is what happens between two awaits,
the device and Home Assistant are peers that do what their own side of the protocol says, and every run of
steps is covered.

## What the code does not keep

Where a property turned out not to hold of the code as it stands, the model keeps the code and proves where
the property holds.

- A device that has applied and acknowledged everything can lack an alarm that the controller holds
  delivered and armed: the tombstone of a rejected snooze's child leaves `delivered` alone, also when a push
  has shown that child (`controller/em_alerts.py:868-872`, `1007-1018`). `DeliveryProtocol.Converged` gives the
  exact difference, `ConvergedExactly` the condition, `Disowned.FailedSnoozeDisowns` the failing step from
  every such state, and `Disowned.DisownedRun` a run of journal and delivery together that gets there.
- A `calendar_create` that Home Assistant carries out but does not answer within ten seconds ends the
  worker without a disconnect (`controller/em_ha_client.py:1042-1052`), so `fresh` stays set and the next
  operation starts the same row again; before the push arrives it creates a second event.
  `OneEvent.SilenceMakesTwo` shows it from every such state, creates and snoozes alike; `OneEvent.AtMostOneEvent`
  has the condition under which no run does, and `HiddenPushMakesTwo`, `FailedReadMakesTwo` and `GuardMakesTwo`
  show what goes wrong without each of its other clauses.
- The parent of an applied snooze can be live again when its row also asked for a stray child's tombstone
  (`controller/em_alerts.py:851-860`), if a push hid the parent while it was in the calendar and a later one
  shows it while that tombstone is being sent. `Unhidden.HandledIsNeverLive` has the condition on the pushes
  under which nothing dealt with is ever live, `Unhidden.HiddenParentIsLive` is a run without it, and
  `Unhidden.ComesBackIff` says exactly from which states it can happen.
- When two events share a schedule and a key, a dismissal deletes one, can never see the other gone and is
  rejected in the end, the one already deleted (`controller/em_alerts.py:834-836`, `884-893`):
  `Finishing.TwinIsRejected`. `Finishing.EveryOperationGetsDone` has the condition.
- The tap's pairing depends on the order of arrival when two tap periods fall into one capture period,
  which needs a subscription to be taken up again after another one: `TapOrder.TapOrderIndependentIff`,
  `TapOrder.ReturningSubscriptionDiffers`, `TrackSpec.StretchIsDistinct`.
- `AfeTrack.series` raises on a span wholly older than the kept periods, and only then: `AfeTracks.AfeTrack.Series`.
- `finalize` answers False when the header write fails or the size cannot be read, and `recover` then
  unlinks a part file that does hold audio: `Recordings.PartIsRecovered`.
- `recover` is documented never to raise, but a part file too large for a WAV header makes it
  (`controller/em_ambient.py:165-167`, `378-391`), and the parts listed after it stay: `Recordings.AllAudioRecovered`.
- An `uncertainty_us` of 0xffffffff is the wire's "unknown" and comes back as None: `Codec.ParseBuild`.
- The cell ring, unlike the AFE ring, has no place to spare for cells off the grid, so the far end of its ten-second
  lead can be overwritten within the utterance: `RetentionSpec.CellsKeptIff` says exactly which cells stay,
  `CellsLost` is the packet that takes one.
- A reply whose only command cell straddles the trigger has no start and so no maximum:
  `EndpointSpec.RepliesEndIff` has the exact condition on the setup, `StaysOpen` the run.

## Model

| member | source | states |
|---|---|---|
| Intervals.IntervalSet.Add | controller/em_audio_timeline.py:548-560 | the set becomes its union with [a, b), stays sorted with gaps between intervals, and the result is exactly the part that was not there |
| Intervals.IntervalSet.Missing | controller/em_audio_timeline.py:533-543 | exactly the part of [a, b) outside the set, as separated ranges |
| Intervals.IntervalSet.Overlapping | controller/em_audio_timeline.py:522-531 | exactly the part of the set inside [a, b), as separated ranges |
| Intervals.IntervalSet.Covers | controller/em_audio_timeline.py:545-546 | true if and only if every integer of [a, b) is in the set |
| Intervals.IntervalSet.TrimBefore | controller/em_audio_timeline.py:562-567 | the set keeps exactly its members from x on |
| Intervals.IntervalSet.Containing | controller/em_audio_timeline.py:517-520 | the whole interval around x, with neither border's neighbour in the set |
| Intervals.SolidIsOne | controller/em_audio_timeline.py:545-546 | a separated list that covers [a, b) is that one interval: looking at one interval suffices only because touching ones are merged |
| Intervals.MergeIsUnion | controller/em_audio_timeline.py:548-560 | replacing the intervals that touch [a, b) by their hull gives the union and keeps gaps |
| Intervals.TrimIsRestriction | controller/em_audio_timeline.py:562-567 | cutting the columns at x is restriction to x and later |
| RingSpec.RingRefinesFirstCopies | controller/em_audio_timeline.py:578-696 | after any run of writes, mutes, trims and clears the ring knows exactly what an unbounded first-copy-wins map knows at or past the floor, with the same values |
| RingSpec.RunBounded | controller/em_audio_timeline.py:604-618 | in every reachable state the known indices lie in [floor, frontier), at most one capacity apart, and no two share a slot |
| RingSpec.RunFloor | controller/em_audio_timeline.py:604-608 | after any run the floor is the highest trim since the last clear or one capacity behind the frontier, whichever is higher, and the frontier is the end of a write or mute that no other end exceeds unless it was already below the floor |
| RingSpec.RingRemembers | controller/em_audio_timeline.py:578-584 | nothing is forgotten early: an index not trimmed and within one capacity of every end keeps its first copy |
| RingSpec.JumpIsAdvance | controller/em_audio_timeline.py:625-628 | trimming first on a write past the whole ring changes nothing but the order of work |
| Rings.SampleTimeline.Write | controller/em_audio_timeline.py:620-636 | samples already known keep their values, the others are stored in their slots, the ranges returned are exactly the newly known samples; silence and mutes below the new floor go and only a silent write adds silence |
| Rings.SampleTimeline.WriteSilence | controller/em_audio_timeline.py:638-639 | like a write of zeros, with exactly the newly known samples recorded as digital silence and the mutes cut at the new floor |
| Rings.SampleTimeline.MarkMuted | controller/em_audio_timeline.py:641-644 | the frontier moves, nothing becomes known, and the muted range from the floor on is recorded |
| Rings.SampleTimeline.Read | controller/em_audio_timeline.py:661-674 | an error unless all of [a, b) is known, else exactly the values held, across the ring's seam |
| Rings.SampleTimeline.IsSilent | controller/em_audio_timeline.py:657-659 | true if and only if all of [a, b) was recorded as digital silence, and then every sample is known and zero |
| Rings.SampleTimeline.Covers | controller/em_audio_timeline.py:650-651 | true if and only if [a, b) is retained and known |
| Rings.SampleTimeline.TrimBefore | controller/em_audio_timeline.py:681-688 | everything before the sample is forgotten, silence and mutes included, and the floor never goes down |
| Rings.SampleTimeline.Clear | controller/em_audio_timeline.py:690-696 | the state of a new timeline |
| Rings.SampleTimeline.Store | controller/em_audio_timeline.py:610-618 | each sample lands in its slot, in at most two runs, and every other index of the ring keeps its value |
| Records.RecordTimeline.Write | controller/em_audio_timeline.py:716-733 | the same first-copy-wins map by grid step; the ranges returned are exactly the new steps in samples |
| Records.RecordTimeline.Covers | controller/em_audio_timeline.py:735-737 | bounds off the grid are an error; else true if and only if every record of [a, b) is retained and known |
| Records.RecordTimeline.ReadAll | controller/em_audio_timeline.py:739-746 | the cells' read of samples [a, b): one error for bounds off the grid, another unless every record is known, else exactly the records in order |
| Records.ListingLists | controller/em_audio_timeline.py:798-808 | what the AFE read returns is ascending and has exactly the known steps of the span with their records |
| Records.RecordTimeline.ReadRetained | controller/em_audio_timeline.py:798-808 | the AFE read: exactly the retained records of the steps that overlap [a, b), ascending |
| Records.RecordTimeline.TrimBefore | controller/em_audio_timeline.py:810-817 | the steps that end at or before the sample are forgotten, and no other |
| Records.RecordTimeline.Clear | controller/em_audio_timeline.py:819-823 | as if no record had come |
| VadTracks.VadRefinesNewest | controller/em_audio_timeline.py:826-883 | after any run the track holds exactly the newest value of each cell from the floor on; a cell never written in the window has none, a trimmed one stays gone |
| VadTracks.NoteFloor | controller/em_audio_timeline.py:843-857 | after any run the floor is the highest trim since the last clear or one capacity behind the newest end, whichever is higher |
| VadTracks.VadRemembers | controller/em_audio_timeline.py:826-857 | a cell not trimmed and within one capacity of every end keeps its newest value |
| VadTracks.VadTrack.Write | controller/em_audio_timeline.py:843-857 | newest value wins; slots of cells that enter the window are emptied first |
| VadTracks.VadTrack.Read | controller/em_audio_timeline.py:859-874 | none if no cell of the span was analysed, else the exact span from the first to the last analysed cell, with gaps as gaps |
| VadTracks.VadTrack.TrimBefore | controller/em_audio_timeline.py:876-878 | cells that end at or before the sample are gone |
| ReferenceSpec.EpochsNeverAlias | controller/em_audio_timeline.py:963-1026 | over any run of writes and trims the segments stay disjoint and ordered, and every known sample inside a segment was handed in for that epoch at that index since the segment was created |
| Epochs.EachEpochIsFirstCopies | controller/em_audio_timeline.py:963-1026 | after any run of writes and trims each segment holds, from the floor on, exactly the first value handed in for each of its epoch's indices since it was created, and no known sample lies outside the segments |
| Epochs.ReadsBack | controller/em_audio_timeline.py:886-934 | after any run the samples given for a span of an epoch are a right answer if and only if each of its indices lies in a segment the floor has not passed and was first handed in with that value |
| Epochs.ReadableUntilPassed | controller/em_audio_timeline.py:963-1026 | a sample once readable stays so, with its value and its place in the ring, whatever epochs are opened, closed and written, until the floor passes that place |
| Epochs.DropsPassed | controller/em_audio_timeline.py:1015-1020 | the segments dropped are the oldest, each ending at or before the floor; what stays is not empty and begins with a segment past the floor or is the newest alone |
| Epochs.StoreIsRing | controller/em_audio_timeline.py:963-1026 | the store under the epochs is a sample ring like any other, whose floor is its highest trim or one capacity behind its end |
| References.ReadsOnlyItsEpoch | controller/em_audio_timeline.py:886-934 | what a read of an epoch returns was handed in for that epoch at those indices, across closing, dropping and re-creating epochs |
| References.ReferenceTimeline.Write | controller/em_audio_timeline.py:991-1013 | the write is clipped to its own segment, a new epoch closes the others at the frontier, the ranges returned are the new samples in epoch indices, and those alone become silence in a silent write |
| References.ReferenceTimeline.TrimTo | controller/em_audio_timeline.py:1022-1026 | at most the newest samples stay, and passed segments are dropped but for one |
| References.ReferenceTimeline.Read | controller/em_audio_timeline.py:930-934 | the epoch's own samples or the error that says why not |
| References.ReferenceTimeline.Covers | controller/em_audio_timeline.py:922-924 | true if and only if the span lies in the epoch's segment and is known |
| References.ReferenceTimeline.IsSilent | controller/em_audio_timeline.py:926-928 | true if and only if the span lies in the epoch's segment and was recorded as digital silence there, and then all of it is known and zero |
| StreamSpec.HistorySplits | controller/em_audio_timeline.py:1066-1157 | every accepted history of an epoch has strictly increasing sequences and splits into one live chain and at most as many backfill chains as were granted, each packet starting at or after its chain's end |
| Accepting.PacketAcceptedIff | controller/em_audio_timeline.py:1129-1157 | over any run a packet is accepted if and only if its epoch was opened and has not ended, its sequence is past those of all accepted ones, and it starts at or past all of them, goes on with an open backfill, or opens one while fewer were opened than granted |
| StreamSpec.EndedIsFinal | controller/em_audio_timeline.py:1080-1116 | an ended epoch accepts nothing and stays ended; `current` names an open epoch only |
| Streams.StreamRegistry.Check | controller/em_audio_timeline.py:1129-1157 | accepts or refuses with the source's fault, and changes the epoch exactly as the specification does |
| Streams.StreamRegistry.Open | controller/em_audio_timeline.py:1048-1096 | an unknown stream, an epoch that is no 64-bit number, epoch 0, another stream's kind, rate or format and an ended epoch are refused with the source's error and change nothing; otherwise the epoch is current, as it was if known and new if not |
| StreamSpec.U64RoundTrip | controller/em_audio_timeline.py:162-174 | every 64-bit number is read back from the decimal text it is sent as |
| Streams.StreamRegistry.End | controller/em_audio_timeline.py:1098-1111 | numbers that are no 64-bit numbers and an unknown epoch are refused and change nothing; otherwise that epoch is ended with its final sample, and is no longer current |
| Streams.StreamRegistry.GrantBackfill | controller/em_audio_timeline.py:1120-1127 | one more backfill for each epoch the grant reaches, and nothing else |
| RetentionSpec.UtteranceIsKept | controller/em_audio_timeline.py:1584-1645 | from any state with an utterance anchored at u, while no stream runs past u + 30 s, no store drops a mic sample from u - 10 s on, an AFE record or a cell's probability reaching past u - 12.5 s, or a kept cell |
| RollingSpec.RetainKeepsIff | controller/em_audio_timeline.py:1584-1600 | retaining keeps a mic sample, an AFE record, a probability and a cell if and only if each lies within the ten seconds before the utterance or the newest sample, with its own lead |
| RollingSpec.ReferenceKeepsIff | controller/em_audio_timeline.py:1584-1594 | and of the reference exactly the newest samples, as many as the mic spans and 2.5 seconds more |
| RollingSpec.RollingIsKept | controller/em_audio_timeline.py:1596-1600 | over every run without an open utterance, with the mic at f in the end, nothing of the ten seconds before f, their AFE records, probabilities and cells is lost |
| RetentionSpec.EveryRunIsSound | controller/em_audio_timeline.py:1561-1645 | in every reachable buffer each stream's records lie within one ring of its frontier |
| RetentionSpec.NothingPrecedesTheStart | controller/em_audio_timeline.py:1602-1645 | over every run no stored mic sample, cell or AFE record begins before what the subscription asked for |
| RetentionSpec.AfeCapacityIff | controller/em_audio_timeline.py:130-133 | a ring keeps every promised AFE record of every utterance if and only if it has at least the source's capacity |
| RetentionSpec.CapacityIsTight | controller/em_audio_timeline.py:130-133 | a ring with one place less, a promised record in it, and the write within the thirty seconds after which it is gone |
| RetentionSpec.WriteDropsIff | controller/em_audio_timeline.py:620-636 | a write drops a held index if and only if its frontier leaves it more than a ring behind |
| RetentionSpec.CellsKeptIff | controller/em_audio_timeline.py:129-129 | a cell of the lead is kept over every run of the utterance, from whatever buffer, if and only if it lies within one ring of the utterance's last possible cell |
| RetentionSpec.CellsLost | controller/em_audio_timeline.py:1602-1645 | any other held cell is lost to one packet of cells within the thirty seconds |
| RetentionSpec.CellsFallShort | controller/em_audio_timeline.py:129-129 | a whole cell of the ten-second lead is out of the ring's reach by the utterance's end if and only if the utterance starts on the cell grid or in the second half of a cell |
| RetentionSpec.CellsAlmostReach | controller/em_audio_timeline.py:129-129 | from 768 samples into that lead on, every cell is kept |
| Codec.ParseBuild | controller/em_audio_timeline.py:434-487 | every frame that is built parses, to the very fields it was built from; uncertainty survives if and only if it is not 0xffffffff |
| Codec.BuildParse | controller/em_audio_timeline.py:371-431 | re-encoding any accepted frame gives the same bytes, all five kinds, silence and unknown uncertainty included |
| Frames.AcceptedIff | controller/em_audio_timeline.py:371-431 | a frame is accepted if and only if its magic, version, kind, stream, format, rate, counts and length fit one row of the table of kinds and every cell or AFE record in it is legal, each told by its offset and its bounds |
| ByteFields.PcmRoundTrip | controller/em_audio_timeline.py:284-290 | samples survive their bytes |
| ByteFields.BytesRoundTrip | controller/em_audio_timeline.py:284-290 | bytes survive being read as samples |
| AttributionSpec.RunStartIsSpeech | controller/em_attribution.py:302-307 | a run opened on a cell that ends after the trigger starts between the trigger's cell and that cell, at a cell, with speech all the way, and never inside the guard |
| Labelling.EveryLabelIsRight | controller/em_attribution.py:329-416 | for every cell of every utterance: each class and each rule if and only if its condition on the cell's evidence, the foreground, the background and the open run holds; a run opens exactly at 0.70 with the level at least 0.55 of the span above the background, or one of the levels unknown, outside the guard |
| Labelling.RunGrounds | controller/em_attribution.py:318-372 | the foreground in force at a cell is the percentile of the wake's levels, if they were enough, and of those of the command cells since |
| Labelling.RunFollows | controller/em_attribution.py:302-372 | the open run and the stretch of speech under way are what the labels and the evidence so far say |
| AttributionSpec.CommandCells | controller/em_attribution.py:329-372 | a command cell ends after the trigger, is speech, and carries a run start not after it, of a run that some cell opened and that has been speech since; for a reply the start is at most the overlap before the trigger |
| AttributionSpec.RunHasOpener | controller/em_attribution.py:383-416 | whenever the attributor is in a run, some cell opened it with that date and every cell since is speech |
| AttributionSpec.RunTracks | controller/em_attribution.py:329-372 | the state after any cells: the next position, and an unbroken streak of speech from `_speech_start` |
| Traces.ExtendAddsOne | controller/em_attribution.py:183-193 | the run-length trace stands for the labels of the cells, one by one |
| Attributors.Attributor.Classify | controller/em_attribution.py:329-372 | refuses a cell out of order and changes nothing, else the specified state and label, and the trace gains exactly that label |
| Attributors.Attributor.Decide | controller/em_attribution.py:374-416 | opens, continues or ends the run exactly as decided, rule by rule |
| Attributors.Attributor.DropSeed | controller/em_attribution.py:323-327 | enough seed levels join the foreground in order, fewer are dropped |
| EndpointSpec.EveryCommit | controller/em_endpoint_policy.py:307-335 | every commit of a fed utterance: utterance start <= start <= boundary <= end <= valid audio, a tail of at most the look-ahead, a boundary at a command cell's end; routes A and R waited the look-ahead plus their pause with fewer than four command cells after |
| Routing.EveryStepIsDemanded | controller/em_endpoint_policy.py:343-459 | the answer of every step of every utterance not yet over is the one demanded of the cells observed so far and the endpoint pending: its close, its endpoint with route, boundary and text, its revocation, commit with all its fields, fallback or retry, or nothing |
| Routing.RouteAIs | controller/em_endpoint_policy.py:343-359 | route A finds an endpoint if and only if there are six counted cells, a text, 10 blanks, 15 quiet among the last 19 cells, or with the background under an unfinished text, and the pause the text asks for since the last command cell |
| Routing.RouteBIs | controller/em_endpoint_policy.py:361-375 | route B finds one if and only if a complete text has been stable for 9,728 samples, at least four fifths of the speech since is background, and a command cell ended by then; it ends at the last such |
| Routing.RouteRIs | controller/em_endpoint_policy.py:377-380 | route R finds one if and only if the last command cell ended 16,384 samples ago |
| Routing.PendingIsAnswered | controller/em_endpoint_policy.py:419-442 | what is pending after a step is what it answered that it waits for |
| Routing.FewAfter | controller/em_endpoint_policy.py:419-434 | a commit of a pause leaves fewer than four command cells after its boundary, counted over the cells observed |
| EndpointSpec.EndsOnce | controller/em_endpoint_policy.py:302-335 | after a commit or a close every step is refused and neither ever changes; there is exactly one of the two |
| EndpointSpec.RunsHold | controller/em_endpoint_policy.py:228-459 | in every reachable state listening has nothing pending, a pending endpoint still has its pause behind it and no command cell in between |
| EndpointSpec.LimitsClose | controller/em_endpoint_policy.py:403-425 | past its maximum, its no-input time or its reply's maximum a step closes; a step that does not close is within them all, so nothing commits past them |
| EndpointSpec.TurnsEnd | controller/em_endpoint_policy.py:382-459 | a turn that is no reply, with advancing frontiers, is over after a bounded number of steps |
| EndpointSpec.RepliesEnd | controller/em_endpoint_policy.py:382-459 | so is a reply whose trigger lies on the cell grid or that answers an ESPHome question |
| EndpointSpec.RepliesEndIff | controller/em_endpoint_policy.py:299-300 | every reply of a setup ends within its bound if and only if the trigger lies on the cell grid or the reply answers an ESPHome question |
| EndpointSpec.StaysOpen | controller/em_endpoint_policy.py:287-300 | for every other setup a run that is still open after any number of steps |
| EndpointSpec.MinimumCountsDistinctCells | controller/em_endpoint_policy.py:343-359 | what route A counts are different cells: each held one lies between the trigger's cell or the answer's run and the first command cell, no further cell fits there, and the others are the command cells |
| Turns.CountedCellsAreSpeech | controller/em_endpoint_policy.py:287-300 | attributor and reducer together: every cell so counted is a cell of the utterance with speech in it |
| Endpoints.EndpointReducer.Step | controller/em_endpoint_policy.py:382-459 | the specified verdict and the specified state, in the source's order of closings, revocation, commit and routes |
| Endpoints.EndpointReducer.Observe | controller/em_endpoint_policy.py:287-300 | refuses a cell out of order, else command ends, first command start and held cells as specified |
| Endpoints.EndpointReducer.FinalizeOnce | controller/em_endpoint_policy.py:307-335 | refuses a second ending, else the specified commit |
| EndpointSpec.ClosedForGood | controller/em_endpoint_policy.py:302-305 | after a close every later step of any run is refused, and the reason, the absent commit and what was pending stay as the close found them |
| Turns.PacedIsFed | controller/em_utterance.py:638-660 | stepping at block ends with the cells that end by then feeds the reducer as it needs |
| Turns.CommitEndsCommandSpeech | controller/em_utterance.py:638-668 | end to end: a commit's boundary is the end of one of the utterance's cells, speech that ended after the trigger in a run some cell opened |
| Turns.EndsAreCommands | controller/em_endpoint_policy.py:287-300 | the reducer's command ends are those of the command cells it was fed, in order |
| DeliveryProtocol.Converged | controller/em_alerts.py:950-1035 | over every run, when the controller trusts its view and the device has applied the last sequence, the device's cache is `delivered` less what stray tombstones took, and equals it if and only if they took nothing |
| Recovering.SnapshotRecovers | controller/em_alerts.py:989-1005 | once the view is lost, one delivery of any pages of what is live, sent, taken and acknowledged, leaves any device with exactly what is live, all of it acknowledged and armed |
| Recovering.AskedIsAnswered | controller/em_alerts.py:1085-1100 | from every world in which a waiting ack asks for a snapshot, reading the acks and one delivery do the same |
| Recovering.DeltaCatchesUp | controller/em_alerts.py:950-982 | from every reachable state of a device up to date, one delta leaves it with what is live, acknowledged and armed |
| Recovering.HelloKnows | controller/em_alerts.py:1054-1074 | after a hello the view is trusted if and only if it was and the device has applied the last message; a device of this epoch has its acknowledged number taken over, and a trusted view arms every schedule |
| Recovering.EveryWorldSettles | controller/em_alerts.py:950-1100 | from every reachable world whose endpoint has had a push, a new session and one delivery, whatever was lost or half sent, make live, delivered and the device's cache agree, erased tombstones aside |
| DeliveryProtocol.ConvergedExactly | controller/em_alerts.py:950-1035 | with stray tombstones naming nothing delivered, it equals `delivered` |
| DeliveryProtocol.TombstoneTakesDelivered | controller/em_alerts.py:1007-1018 | from every state with a quiet device and an armed, delivered child: its tombstone leaves that alarm delivered and armed, missing on the device, and nothing will send it |
| Disowned.FailedSnoozeDisowns | controller/em_alerts.py:862-872 | journal and delivery together: from every state in which a snooze's deletion is refused or never becomes visible while its child is delivered and armed, the row is rejected and the device loses the child for good |
| Disowned.DisownedRun | controller/em_alerts.py:836-872 | such a run from every start with one alarm and a device of another epoch |
| DeliveryProtocol.HeldIsReached | controller/em_alerts.py:1054-1100 | whatever is live, a hello, a push, a delivery and an ack bring it to a device of another epoch, delivered and acknowledged |
| DeliveryProtocol.ArmedIsHeld | controller/em_alerts.py:1032-1035 | armed means, while the device's store is of this delivery epoch, that the device holds every delivered occurrence of those schedules and no other of theirs, unless a stray tombstone took it |
| DeliveryProtocol.WipedIsArmed | controller/em_alerts.py:1032-1035 | a device that has just lost its store holds nothing and is still armed, until its session is lost |
| DeliveryProtocol.ArmedIsSettled | controller/em_alerts.py:1032-1035 | armed also means that no message past the acknowledged one changes those schedules' occurrences |
| DeliveryProtocol.NumbersNameOneContent | controller/em_alerts.py:1020-1030 | what is under way has a durable number, and that number has one content in every later world, restarts included |
| DeliveryProtocol.StepKeeps | controller/em_alerts.py:950-1100 | every step of controller, device and link keeps the protocol's invariant |
| DeliveryProtocol.SnapshotInstalls | device/internal/alerts/delivery.go:110-193 | whatever a device holds, a snapshot's pages in order leave it with exactly the listed cache at that number |
| DeliveryProtocol.DeltaApplies | controller/em_alerts.py:960-976 | a delta's objects turn what the device has into what will have been delivered, whatever was erased |
| DeliveryProtocol.DeliveredIsLive | controller/em_alerts.py:950-982 | what a delivery to an online device leaves delivered is what is live, bodies included |
| AlertDelivery.ChunksCarryAll | controller/em_alert_wire.py:592-605 | the pages carry every object once and in order, all full but the last |
| AlertDelivery.AlertEndpoint.Deliver | controller/em_alerts.py:950-976 | the specified new state, and pages or objects that the protocol's delivery may issue |
| AlertDelivery.AlertEndpoint.Snapshot | controller/em_alerts.py:989-1005 | everything live under the new sequence, every schedule gained or lost marked with it, pages that list exactly that |
| AlertDelivery.AlertEndpoint.SendDelta | controller/em_alerts.py:960-976 | the changed and the removed and nothing else, in state, marks and objects |
| AlertDelivery.AlertEndpoint.SendObjects | controller/em_alerts.py:1007-1018 | to a device whose view is known: what is sent takes exactly those occurrences from any cache that applies it, under a fresh sequence, and leaves `delivered` alone; to any other device nothing is sent |
| DeliveryProtocol.StraysTaken | controller/em_alerts.py:1007-1018 | a device that is up to date loses exactly those occurrences and is up to date again, any other asks for a snapshot and loses nothing |
| AlertDelivery.AlertEndpoint.IsArmed | controller/em_alerts.py:1032-1035 | true if and only if online, valid and every named schedule's last change is acknowledged, with at least one named |
| AlertDelivery.AlertEndpoint.OnSessionHello | controller/em_alerts.py:1054-1074 | the view stays trusted only if epoch and sequence match; an acknowledgement is taken over within range |
| AlertDelivery.AlertEndpoint.OnAlertAck | controller/em_alerts.py:1085-1100 | a snapshot request drops the view, a durable ack in range moves the acknowledged sequence, anything else changes nothing |
| JournalProtocol.SnoozeNeverLoses | controller/em_alerts.py:836-860 | over every run of drops, silences, crashes and other operations the parent or the snooze's child is in the calendar, unless another operation dealt with one of them |
| JournalProtocol.AppliedWasSeen | controller/em_alerts.py:815-893 | an operation is applied only after the worker saw its effect somewhere on the run: a push or a REST read with the event of a create or a snooze, a push without what a dismiss, an expire, a cancel or a snooze removes |
| Verdicts.StepRejectsIff | controller/em_alerts.py:802-893 | a step rejects the worker's operation if and only if it is a refused call, a wait or read given up, a read with the wrong answer, or the start of one that lacks what it needs or whose parent is gone; it rejects no other |
| Verdicts.RejectedWasGivenUp | controller/em_alerts.py:802-893 | whatever is rejected at the end of a run met such a step, on that run, while it was the worker's |
| Finishing.EveryOperationGetsDone | controller/em_alerts.py:802-893 | from every reachable world a reconnection, a push of the calendar and answered calls lead to one where the pending operation, if its event has an occurrence, what it snoozes is there and what it deletes is one thing, is applied, its event is there, and what it dismisses, expires, snoozes or cancels is not |
| Finishing.NextOperationGetsDone | controller/em_alerts.py:802-893 | the same without a reconnection, when the worker has not begun the operation |
| Finishing.DismissIsDone | controller/em_alerts.py:884-893 | a dismissal or expiry taken up with a fresh look deletes exactly what it names, with no REST read unless that lies before the window |
| Finishing.OldDismissIsDone | controller/em_alerts.py:884-893 | one of an alarm before the window, which no push shows, deletes it too, without any push |
| Finishing.FarCreateIsDone | controller/em_alerts.py:818-826 | a create past the window, which no push shows, is made and applied without any push |
| Finishing.OldSnoozeBegins | controller/em_alerts.py:841-847 | a snooze of an alarm before the window makes its child without any push |
| Finishing.OldSnoozeEnds | controller/em_alerts.py:848-850 | and, once the child shows, takes that alarm away without a further one |
| Finishing.TwinIsRejected | controller/em_alerts.py:834-836 | from every state with two occurrences of one schedule and key, a dismissal that is answered, and a push that hides nothing, end in its rejection with one of them left |
| JournalProtocol.FinishedOnceInOrder | controller/em_alerts.py:802-813 | the finished rows are a prefix in seq order and each verdict is final |
| JournalProtocol.NothingElseIsDeleted | controller/em_alerts.py:743-754 | whatever leaves the calendar was dealt with by a journaled operation |
| Unhidden.HandledIsNeverLive | controller/em_alerts.py:705-741 | in no reachable state is an occurrence live that an applied row has dealt with; when that row is a snooze with a stray child, while no push that comes when it is pending hides from the calendar what it deals with, its time being within the window, or past it brings that back |
| Unhidden.HiddenParentIsLive | controller/em_alerts.py:836-860 | a run from a start with such a snooze, in which pushes do hide the parent, that ends with the parent handled and live |
| Unhidden.ComesBackIff | controller/em_alerts.py:851-860 | while the stray child's tombstone is being sent, some run ends with an occurrence of the row's live and the row applied if and only if it is live now, or still in the calendar or a push under way and dealt with by no applied row |
| JournalProtocol.StrayParentIsLive | controller/em_alerts.py:836-860 | from every state in which such a row is sending its tombstone and the next push shows the parent, two steps make it live though handled |
| Rearming.LiveIsWithin | controller/em_alerts.py:705-741 | what the endpoint makes live of a push is part of what the journal's protocol calls live, and all of it below the cap |
| Rearming.DeliveryArmsNothingHandled | controller/em_alerts.py:705-758 | journal and delivery together: what a delivery leaves delivered, and so can be armed, holds nothing that an applied row has dealt with; for a snooze with a stray child, while the pushes show the whole window |
| Rearming.SettledDeviceHoldsNothingHandled | controller/em_alerts.py:950-976 | nor does the cache of a device that has applied the last delivery, which holds only what is live |
| Rearming.NextPendingIsDone | controller/em_alerts.py:476-479 | over the journal's table in every reachable state, the query for the next row answers the first unfinished one, or none if all are finished |
| JournalProtocol.StepKeeps | controller/em_alerts.py:705-946 | every step of worker, calendar and link keeps the invariant |
| JournalProtocol.DeleteKeeps | controller/em_alerts.py:884-893 | a deletion of what a row deals with is accounted for by that row, a snooze's only once its child was shown |
| OneEvent.AtMostOneEvent | controller/em_alerts.py:815-846 | at most one event is ever made for an operation, through drops, crashes, rejections and retries, while pushes show something of the pending operation's event, no near create or failed read is met by silence, and the guard leaves that event alone |
| OneEvent.SilenceMakesTwo | controller/em_alerts.py:829-831 | from every state about to create an event that the last push does not show, creates and snoozes alike, silence after it is carried out makes two events of one op_id |
| OneEvent.HiddenPushMakesTwo | controller/em_alerts.py:815-831 | so does a push that hides the event already made |
| OneEvent.FailedReadMakesTwo | controller/em_alerts.py:815-831 | and a REST read that fails once the window has reached an event made past it |
| OneEvent.GuardMakesTwo | controller/em_alerts.py:725-741 | and a restore guard that removes the event while its operation is pending |
| OneEvent.WakingIsReached | controller/em_alerts.py:681-723 | such a state is reached by an enqueue, a connect and a push |
| OneEvent.StepKeepsOne | controller/em_alerts.py:681-946 | what keeps it so: each push shows some of the pending operation's event or none has yet, and the worker creates only when none has |
| RestoreGuard.LiveIsEarliest | controller/em_alerts.py:705-717 | live is ascending by due time and id, at most 4096, and nothing unhandled that was left out is due before anything in it |
| RestoreGuard.LiveIsUnhandled | controller/em_alerts.py:725-741 | nothing live is handled, and all of it was pushed |
| RestoreGuard.UnhandledIsLive | controller/em_alerts.py:705-717 | below the cap everything pushed and unhandled is live |
| RestoreGuard.SortedIsSorted | controller/em_alerts.py:715-715 | the order is ascending and a permutation |
| AlertJournals.GuardIsHandled | controller/em_alerts.py:481-485 | the guard's query answers exactly whether some applied row has dealt with an occurrence |
| AlertJournals.NothingHandledBecomesLive | controller/em_alerts.py:705-741 | no occurrence that any applied row has dealt with becomes live on a push |
| AlertJournals.Journal.Insert | controller/em_alerts.py:449-466 | the same request under an op_id finds its row unchanged, another is a conflict that changes nothing, a new op_id is appended pending |
| AlertJournals.Journal.Finish | controller/em_alerts.py:471-474 | exactly the named row gets its verdict |
| AlertJournals.Journal.Advance | controller/em_alerts.py:468-469 | exactly the named row gets its step |
| AlertJournals.Journal.NextPending | controller/em_alerts.py:476-479 | the first pending row in seq order, or that there is none |
| AlertJournals.Journal.Terminal | controller/em_alerts.py:481-485 | the applied rows that deal with something, in order |
| AlertJournals.AlarmCalendar.Guard | controller/em_alerts.py:725-741 | keeps exactly the unhandled, and asks once for exactly the deletions of the handled |
| AlertJournals.AlarmCalendar.OnPush | controller/em_alerts.py:705-723 | a push of the current subscription replaces what is live; a stale one changes nothing at all |
| AlertJournals.AlarmCalendar.Subscribe | controller/em_alerts.py:681-686 | a subscription has a new token and nothing counts as up to date; what was pushed and what is live stay |
| OrderedDicts.RemoveIsMinus | controller/em_afe.py:573-583 | taking a key out of an ordered dictionary takes that key only and keeps the order |
| Matching.PlaySettles | controller/em_afe.py:527-583 | with distinct keys each period ends with its own key's record or none, and waiting and early are what is left over |
| Matching.OrderIndependentIff | controller/em_afe.py:527-583 | every interleaving of the same periods and records gives the same pairing if and only if no two periods share a key |
| TrackSpec.TrackShowsMatch | controller/em_afe.py:550-583 | while nothing gives up waiting, the bounded window shows the newest periods of that matching |
| Expiring.EachPeriodShowsItsRecord | controller/em_afe.py:550-583 | in any run with one record and one period a key, also when periods give up and early records are pushed out, each period of the window shows a record if and only if that has its key, came when no more than 250 periods had been taken since, and was not pushed out by 250 unclaimed records before the period was taken |
| Expiring.LateRecord | controller/em_afe.py:566-571 | a record that comes after its period is shown exactly if no more than 250 periods were taken since, and otherwise the period stays empty |
| TapOrder.TapOrderIndependent | controller/em_afe.py:550-583 | the same blocks in order, each subscription in one stretch, and the same records at any time and in any order, while nothing gives up waiting, leave the same periods, each its key's one record or none |
| TapOrder.TapOrderIndependentIff | controller/em_afe.py:550-583 | over all runs of the tap with the same blocks, within its wait and its window, the order of the records never matters if and only if no two tap periods fall in one capture period |
| TrackSpec.WindowPosition | controller/em_afe.py:550-571 | floor plus kept periods is always the number of periods whose middle sample was taken, and at most the capacity is kept |
| TrackSpec.StretchIsDistinct | controller/em_afe.py:550-571 | subscriptions taken in one stretch each, at advancing positions, never share a capture period |
| TapOrder.ReturningSubscriptionDiffers | controller/em_afe.py:550-583 | a subscription that comes back: the same three blocks and one record, brought first or last, leave different periods though nothing gave up |
| AfeTracks.AfeTrack.Mic | controller/em_afe.py:550-571 | the specified window after a block, its oldest periods dropped and the overdue given up |
| AfeTracks.AfeTrack.Afe | controller/em_afe.py:573-583 | each record goes to its waiting period or waits itself, at most so many early |
| AfeTracks.AfeTrack.Series | controller/em_afe.py:585-596 | fails if and only if the span is wholly older than the window; otherwise the kept record of each period, or none at all |
| WavFiles.RecoveryAfterAnyKill | controller/em_ambient.py:147-170 | whatever a kill at any byte leaves, finalizing reports no audio exactly when none reached the disk, raises exactly when the sizes exceed 32 bits, and else gives true sizes and a prefix of the pushed audio with every completed flush |
| WavFiles.FinalizeIsRecovery | controller/em_ambient.py:147-170 | finalizing twice, or after its own torn header write, gives the same file, and the payload never changes |
| WavFiles.LossIsBounded | controller/em_ambient.py:269-302 | a caller that flushes when told holds less than flush_bytes plus its last frame |
| WavFiles.DiskIsPrefix | controller/em_ambient.py:216-302 | disk and frames in hand together are the header and all that was pushed |
| WavFiles.HeaderSizes | controller/em_ambient.py:128-144 | a header's size fields say what the file holds |
| WavFiles.HeaderSays | controller/em_ambient.py:128-144 | tag by tag and field by field: RIFF, the sizes, PCM, one channel, 16 kHz, 32,000 bytes a second, 2 bytes and 16 bits a sample, and the data size |
| Recordings.AllAudioRecovered | controller/em_ambient.py:374-391 | the promotion loop on a working filesystem, before any pruning: it raises if and only if a listed part is too large, and as many recordings are added as there are parts with audio before the first such, each with one of them |
| Recordings.EachPartRecovered | controller/em_ambient.py:374-391 | every listed part with audio, whatever the others hold, becomes a recording with its payload and true sizes, unless a part listed before it is too large |
| Recordings.RecoverKeeps | controller/em_ambient.py:374-391 | whatever the filesystem does, the promotion loop overwrites no finished recording and touches no other part |
| Recordings.PartIsRecovered | controller/em_ambient.py:379-391 | one part's audio becomes a recording exactly when its size is read and header write and rename work; a failed rename keeps it, anything else unlinks it if that works |
| Recordings.Recorder.Push | controller/em_ambient.py:273-281 | takes the frame in hand, remembers the first position, and says exactly whether a flush is due |
| Recordings.Recorder.Flush | controller/em_ambient.py:283-302 | all in hand goes to disk, in order, and is counted |
| Recordings.Recorder.Close | controller/em_ambient.py:304-330 | everything held reaches the file; no file for an empty recording, an error with the audio left in the part when the sizes exceed 32 bits, else a file whose sizes match, the same that recovery would have made |
| Recordings.FreeStamp | controller/em_ambient.py:199-211 | the first stamp from the given one on that is free |
| Description.LineRoundTrip | controller/em_alert_wire.py:226-306 | a line's object reads back as the line if and only if the line is valid, and otherwise as nothing |
| Description.DescriptionRoundTrip | controller/em_alert_wire.py:256-325 | for every line and any human text, the text comes back right-stripped, and the line unmalformed if and only if it is valid |
| Description.ParsedIff | controller/em_alert_wire.py:309-325 | for any description: a line if and only if its last line is the prefix and the text of an object that spells a valid one, malformed if and only if that line carries the marker and no such object; the human text is what comes before a marked line, or all of it |
| Description.ReadIff | controller/em_alert_wire.py:271-306 | an object is read as a line if and only if that is valid and the object has exactly its members, a version of 1.0 and a volume of 0 or 1 as integers allowed |
| Description.RebuiltSaysTheSame | controller/em_alert_wire.py:226-325 | whoever wrote it, a description with a line, built anew from what was parsed, parses to the same |

## Left out

- Signal processing: lag estimates, echo verdicts, the clock fit, percentiles and levels are inputs; a percentile is an abstract function and levels are reals, so float32 rounding and the rounding of the 0.8 fraction do not appear.
- Discontinuity lists, `first_sample`, `missing` and `frontier` of the timelines and of `ReferenceView`: bookkeeping that nothing proved here depends on.
- The cell ring's three parallel arrays are one array of records in `RecordTimeline`; the AFE ring is the same class with another grid.
- `SubscriptionBuffer` and `SubscriptionTable`: retention is modelled on values over the timelines' specifications, so aliasing between a buffer's timelines is not; the subscription table's timeouts and acknowledgements are small separate decisions.
- `stream.open` and `stream.end`: a field is text or a number or absent; a decimal text so long that Python's own limit on integer conversion raises is read as a number past 64 bits.
- Stream epochs are values in the registry's map, so two names for one epoch object do not arise.
- `BackgroundTracker`, `EchoTracker`, `EarlyAnswerDetector`, `TextStability`, `local_command_preconditions` and `playback_onset`: their outcomes are inputs to the attributor and the reducer, and their own properties are one loop or one decision each.
- The text behind routes A and B: recognizers and completeness are an abstract function of the text.
- Delivery: page digests and canonical JSON are left out, so a page is the objects it lists; the order of objects within a delta or a snapshot is left open, since each names another occurrence; the device's own snooze children, rings and pending operations are not part of its cache here; a corrupt device store is not modelled.
- Delivery: a send that succeeds while the session has just gone loses its message, and one that fails may or may not have arrived; messages are neither reordered nor duplicated by the link.
- Journal: rows are never pruned (the source keeps finished ones for 90 days), so nothing is said of an operation retried after that.
- Journal: Home Assistant carries out a call when it is made or not at all, its pushes come in order, and a REST read is exact and atomic with the check before it; two events that share an occurrence id are both shown, where the source's dictionary keeps the later one.
- OneEvent.AtMostOneEvent: does not cover runs in which a push hides the pending operation's whole event, a near create or a read is met by silence, or the guard removes that event; two events do come of each, as the lemmas beside it show.
- Unhidden.HandledIsNeverLive: for a snooze with a stray child it asks of the pushes what a full window gives, because without that the code does not keep it; `HiddenParentIsLive` is such a run.
- Which device operations are accepted, and what they answer: `on_local_operation`, `_locate`, the relay requests, scripts, timers, the timer view, status panels, `prune` and the hourly roll itself (its effect, a new subscription, is a step of the protocol).
- `AfeTrack`: a record's fields beyond its start and one value, and the JSON of a series.
- Recordings: a flush that fails half way on a full disk, `abort`, listing, usage, pruning and deletion; a directory is two maps from stamp to bytes. A file too large for a WAV header raises in the source, which is an outcome of `Finalize` and of `Close` here.
- JSON text, SHA-256 and name-based UUIDs: a printer with an inverse parser, and identities that are equal only for equal parts.
- Time zones, next alarm starts, recurrence rules, spoken text, HTTP, WebSocket, shell and dashboard code.
