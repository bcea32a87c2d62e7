# Models of the video analytics pipeline

A Dafny model of the parts of `avap` whose correctness rests on state and order:
the batch former (`StreamMux`), the NvDCF target tracker, the Kalman box filters,
the greedy assignment, tracklet stitching, and the letterbox geometry, with proofs
of what they promise. `dafny verify dfyconfig.toml` checks everything.

## The batch former

`MuxTypes.dfy` holds its values, `MuxSpec.dfy` what every call does to the state as
functions from state to state, `StreamMux.dfy` (with `SinkPad.dfy` and the value
lemmas of `MuxSteps.dfy`) the objects the program has: pads and a mux updated in
place, with the loops of `_sync_filter`, `_form_legacy`, `_form_new`, `_emit`,
`_output_pts`, `_forward_eos`, `poll` and `drain`. Every method is proved to compute
its function, and every public call to be one step of a run: the object carries, as a
ghost field, the world its calls have led to so far, every call takes it one step on,
and `Valid` says that it keeps the invariant of `MuxInvariant.dfy`. The theorems about
runs therefore hold of every history of calls.

A run (`MuxRuns.dfy`) is any interleaving of `start`, `stop`, `add_pad`,
`remove_pad`, `push_frame`, `push_eos` and `poll` such that

* the clock does not run backwards;
* one producer feeds each pad and sends its end of stream after its last frame, as
  `_SourceThread.run` does (src/avap/muxed_pipeline.py:69-94);
* queues hold at least one frame and the overall maximum rate is positive.

A `push_frame` that has to wait is two steps: it takes note of the frame and waits,
and goes on later when there is room, when the mux stops, or, for a pad removed
meanwhile, when it gives up. Times are integers in nanoseconds, `Fraction` rates are
exact reals, and a payload is known by a number. Errors (`KeyError`, `ValueError`)
are replies. Wall-clock stamps, and the times at which `drain` reads the clock, come in as
parameters.

What comes out is also said without the functions that compute it, of every batch and
every call of every run: who gets a share of a batch (`MuxShares.dfy`), in which order
pads are visited (`MuxRound.dfy`), which timestamp it bears in each mode (`MuxPts.dfy`,
`MuxModes.dfy`), how far batches are apart (`MuxRate.dfy`), which call set what a pad or
the clock goes by (`MuxOrigins.dfy`), what the statistics count (`MuxStats.dfy`), and
what push_frame answers (`MuxReplies.dfy`).

Observations the proofs brought out, all of them as in the code:

* The round-robin cursor moves before the throttle of `max_fps_control` is looked at: a
  poll moves it without sending anything exactly when its round was full and the
  maximum rate held the batch back (`MuxThrottle.CursorMovesForNothing`). Two polls a
  period, one of them early, starve a pad: for every n there is a run from an empty mux
  with n batches in which the frame of one pad waits all the time
  (`MuxStarvation.EveryNumberOfBatchesPassesOver`). Bounded waiting holds, with or
  without a maximum rate, as long as no poll has a whole batch held back
  (`MuxFairness.BoundedWaiting`).
* `drain` stops at the first poll with nothing to put out. Without the sync filter
  nothing is then left to put out at that instant. With it the end of a pad can be left,
  exactly if that poll found nothing but late frames in front of it
  (`MuxQuiet.DrainIsQuiet`, `MuxQuiet.ClosingExactly`; `MuxSyncRuns.DrainLeavesTheEnd` is
  a run). With rate control on top of it even a frame can be left that would go at that
  instant, because every late frame dropped lets the next poll look one frame further
  (`MuxSyncRuns.DrainLeavesABatch`): exactly if the round screened next has frames and is
  full or due (`MuxQuiet.GoesExactly`).
* The sync filter splits a queue into late, on-time and early frames exactly if no frame
  stands behind one of a later class (`SyncSplit.ThreeWayExactly`), so always when
  timestamps are in order. Two accepted frames suffice for the other case: a late one
  goes from behind an on-time one (`MuxSyncRuns.LateInTheMiddle`).
* Timestamps count batches and rise from the batch n0 that taught the frame duration D
  on, exactly if D is positive and n0 is at most 1 or n0 * D above 250000
  (`MuxPts.TimestampsCountBatches`). Otherwise the bump that keeps equal timestamps
  apart gets in the way: with D = 125000 learned from the third frame, batch 2 goes out
  at 500000 and batch 3 at 375000 (`MuxPtsRuns.TimestampsFallBack`).
* A legacy deadline stands one timeout after the last batch exactly as long as some pad
  has dropped fewer frames since than it had queued then, at the last moment of the time
  of the batch (`MuxCadence.CadenceExactly`, which reads the counter `dropped` of each
  pad); so always where producers wait for room. Where full queues drop their oldest
  frame, the default of live sources, it can run away for ever: for every n there is a
  run with n polls in which frames are queued all the time and no batch is sent, on a
  single pad that is not live, or on a live pad beside a silent one (`MuxStall.NoBatchEver`).
* An NvDCF filter can fail, on a matrix that cannot be inverted, if and only if the
  detector or the tracker is configured to measure without noise (`BoxFilters.NeverSingular`).

## The trackers

`NvDcf.dfy` models one frame of `NvDcfTracker.update` on a list of targets; what is
computed from pixels and boxes (scores, overlaps, filter responses) and the answers
of the assignment solver are inputs, of which only one thing is assumed: the solver
uses no row and no column twice. `NvDcfFates.dfy` says of one frame, in full, what is
matched, which targets are there afterwards and as what, and what comes out.
`NvDcfTracker.dfy` is the object with its loops,
proved to do the same. `Greedy.dfy` is the assignment the trackers fall back to
without SciPy, `Kalman.dfy` and `BoxFilters.dfy` their filters with dense matrices
over exact reals, `ZeroNoise.dfy` what holds of them when variances may be zero;
`Matrices.dfy` is the little linear algebra they need.

An unmatched NvDCF target lives less than (V + 1)(M + 1) frames, V being
`maxVisualOnlyAge` and M `maxShadowTrackingAge`: bridging resets the shadow age but
spends one of V bridges. A run of a new tracker reaches the bound.

## Stitching and geometry

`Stitch.dfy` numbers tracks by their place in the order of their starts and proves
the nested loops of `stitch`; distances are an arbitrary function. `Letterbox.dfy`
is exact arithmetic.

## Model

| member | source | states |
|---|---|---|
| LegacyBatch.FifoBatch | src/avap/streammux.py:500-519 | the non-live legacy batch has min(batch_size, sum of min(cap, queued)) frames, by arrival, at equal times by pad and on one pad by number, from the front of each queue, at most the cap from one pad |
| LegacyBatch.FifoTakesOldest | src/avap/streammux.py:505-519 | the globally oldest queued frame is always the first one picked |
| LegacyBatch.FifoSkipsOnlyAtCap | src/avap/streammux.py:509-517 | a frame passed over for a younger one belongs to a source that has its full share in this batch |
| LegacyBatch.FormSplits | src/avap/streammux.py:482-583 | under either policy and any setting forming a batch splits each queue: late frames go, picks are the front of what is left, nothing else about a pad changes |
| MuxShares.EveryBatchIsShared | src/avap/streammux.py:522-583 | every batch of every run, told from the mux just before its poll: under the new policy at most the batch size (adaptive: the number of pads not ended) frames, from each pad at most min(max_same_source_frames, max(batch size, its max_frames_per_batch)) and, under rate control, what its rate allows since it was last served; without sync and rate control a batch below its size takes exactly min(queued, that cap) from every open pad; legacy batches hold at most batch_size, one frame per live pad or the legacy cap; slots count from 0, sources, batch_index, max_frames_in_batch and the push time are right |
| MuxShares.RateAllowanceIs | src/avap/streammux.py:558-559 | the truncated allowance admits n > 0 frames if and only if n periods of the source rate have gone by since it was last served |
| MuxShares.LiveTakesOffers | src/avap/streammux.py:492-499 | a live legacy batch is the first batch_size of the oldest frames that the pads in order have left after the sync filter |
| MuxRound.RoundInOrder | src/avap/streammux.py:545-571 | the round visits group after group, from the cursor's group and place (or the first of each) on, cyclically, every entry knowing the place behind its own |
| MuxRound.GroupsInOrder | src/avap/streammux.py:539-542 | groups stand in increasing order of priority and each holds exactly the pads of its priority, in pad order |
| MuxSpec.TurnIsRemainder | src/avap/streammux.py:548-554 | the places the round visits are those of the source's remainders |
| BatchSplit.RoundOnce | src/avap/streammux.py:539-573 | the round through priority groups and cursor visits no pad twice |
| BatchSplit.GroupsPartition | src/avap/streammux.py:539-544 | the priority groups are disjoint and cover all pads |
| MuxTypes.MinFpsDurIsPeriod | src/avap/streammux.py:370-372 | the period of the minimum rate is exactly the batching timeout: the division truncates nothing |
| MuxRate.MaxFpsDurIs | src/avap/streammux.py:580-582 | the period of the maximum rate is the greatest number of whole nanoseconds in one |
| MuxRate.RateIsKept | src/avap/streammux.py:578-582 | in every run under max_fps_control two successive batches are at least that period apart |
| MuxBatches.EveryBatchHasItsPoll | src/avap/streammux.py:392-454 | every batch in the output of every run was put out by one poll, with the output before it and the batch that this poll makes of the state before it |
| MuxSafety.NextOk | src/avap/streammux.py:229-409 | every call keeps the invariant that ties each pad's queue, flags and counters to the ledger of what was accepted, batched and closed on it |
| MuxSafety.EveryRunIsAccountedFor | src/avap/streammux.py:257-328 | in every world of every run each accepted frame is in exactly one place, a batch, closed or queued; batches and queue keep the order of arrival; contents and frame numbers are right; queues stay within their depth |
| MuxOwnership.EveryPayloadHasOneOwner | src/avap/streammux.py:257-328 | every payload ever handed to push_frame was refused and closed, waits with its producer, or was accepted on one pad, each exactly once, through adding and removing pads |
| MuxDelivery.BlockingDeliversExactly | src/avap/streammux.py:307-328 | with blocking producers and no sync filter the batches since a pad was added, read pad by pad, followed by its queue are exactly what was pushed, in order |
| MuxDelivery.CountersAddUp | src/avap/streammux.py:319-328 | received = frame_count + dropped + queued; an end of stream sets received and frame_count to zero where frame_num_reset_on_eos asks for it, and nowhere else; without sync the queued numbers are exactly the interval from frame_count + dropped on |
| MuxDelivery.FrameNumbersTell | src/avap/streammux.py:432-441 | new frame numbers have no gaps; legacy numbers rise, point back at the frame received, and every number skipped is a frame closed |
| MuxReplies.PushTells | src/avap/streammux.py:277-328 | in every run the answer of push_frame tells what became of the frame: true if and only if it is queued and nothing was closed, false if it was refused because the pad has ended or took the place of the oldest frame, which is closed; it waits if and only if its queue is full and full queues block, as configured or, unless configured, for sources that are not live |
| MuxReplies.WaitsWhileFull | src/avap/streammux.py:309-315 | in every run a waiting producer can go on if and only if stop was called, and start not since, or its queue is below its depth |
| MuxReplies.RoomWakes | src/avap/streammux.py:309-315 | in every run a poll that takes or closes a frame of a pad lets its waiting producer go on |
| MuxReplies.ResumeTells | src/avap/streammux.py:315-328 | in every run a producer that waited is refused if the mux is stopping, and else its frame is queued and nothing closed |
| MuxStats.StatsAddUp | src/avap/streammux.py:257-328 | in every world of every run the statistics and the batch index are the batches and frames put out, and the frames dropped are those closed on all pads, present and removed; without sync none is late |
| MuxStats.EachCounterHasItsCalls | src/avap/streammux.py:585-608 | late frames are counted at polls, all others closed at other calls, in every run |
| MuxOrigins.PadsAreAsAdded | src/avap/streammux.py:243-255 | every pad of every world was added by a step since which it was not removed, with the source id given (or its index), the settings given, configured for its index or default, and the configured depth |
| MuxOrigins.OriginOfTime | src/avap/streammux.py:229-294 | in every world the configuration is that of the run, the mux is stopping if and only if stop was called and start not since, and the time origin is that of the last call of start, or else of the first frame accepted |
| MuxOrigins.FirstPushIs | src/avap/streammux.py:288-293 | the first push and first pad remembered are those of the first frame any pad accepted |
| MuxOrigins.NotesTell | src/avap/streammux.py:294-305 | after any frames the frame duration of a pad is the last one given, or else the first rise of its timestamps; its segment starts at the first frame |
| MuxProtocol.OutputObeysProtocol | src/avap/streammux.py:243-264 | at every position of the output of every run each life of a pad is pad-added, stream-segment, frames, at most one stream-eos with no frame after it, pad-deleted; the pipeline's eos comes only with every pad ended, and nothing but pad-deleted and a new pad follows it |
| MuxFairness.BoundedWaiting | src/avap/streammux.py:545-582 | with one priority group, a fixed pad set and no sync or rate control, a waiting pad is served within n batches, n the number of pads, whatever producers and clock do meanwhile, as long as no poll is made whose full round the maximum rate holds back |
| MuxThrottle.CursorMovesForNothing | src/avap/streammux.py:565-582 | under the new policy and any settings a poll moves the cursor and sends nothing if and only if its round was full, the maximum rate held the batch back and the place behind the last pad visited is a new one |
| MuxStarvation.EveryNumberOfBatchesPassesOver | src/avap/streammux.py:565-582 | under max_fps_control, for every n a run from an empty mux that sends n batches while pad a waits with its first frame and has none of its frames in a batch |
| MuxStarvation.OneByOneExists | src/avap/streammux.py:59-94 | a configuration those runs are about |
| MuxDeadlines.DeadlineDecides | src/avap/streammux.py:375-390 | in every state a poll at or after next_deadline_ns brings a batch, and one before it only a batch that is full |
| MuxDeadlines.DeadlineIsExact | src/avap/streammux.py:375-390 | after a poll with nothing to put out, a later poll without new input brings a batch if and only if the deadline is set and has come |
| MuxOrigins.NoDeadline | src/avap/streammux.py:379-389 | there is no deadline with an infinite timeout, or under the new policy without a minimum rate |
| MuxLiveness.LegacyCadence | src/avap/streammux.py:349-355 | while frames stay queued the next legacy deadline is one timeout after the batch just sent |
| MuxCadence.CadenceExactly | src/avap/streammux.py:318-390 | over runs with queues of either kind: until the next batch the deadline stands one timeout after the last batch (or the first push) at t while some pad, never removed, has dropped fewer frames than it had queued then, and only so long if the count starts at the last moment of t; otherwise it is later or unset |
| MuxCadence.NextBatchInTime | src/avap/streammux.py:349-409 | a poll one timeout after a batch sends the next if some frame is left over from it, and otherwise only a batch that is full |
| MuxCadence.LastMoment | src/avap/streammux.py:229-409 | between two worlds of a run there is a last one with the time of the first |
| MuxCadence.CadenceOverRuns | src/avap/streammux.py:342-390 | so with producers that wait for room the deadline stands from a batch that leaves frames on a pad until the next batch, whatever is pushed, added, removed or polled meanwhile |
| MuxCadence.DroppingMovesDeadline | src/avap/streammux.py:318-322 | where a full queue drops its oldest frame, a push can move the deadline |
| MuxStall.NoBatchEver | src/avap/streammux.py:318-390 | where queues drop, a frame every s and a poll g later with (queue_depth - 1) * s + g below the timeout and batches larger than min(queue_depth, max_same_source_frames_legacy), or a live mux with a silent source: for every n a run from an empty mux with n polls, frames queued throughout, and no batch |
| MuxStall.DeadlineRunsAway | src/avap/streammux.py:318-355 | on such a run the first push to the full queue moves the deadline by s |
| MuxStall.StallableExists | src/avap/streammux.py:59-108 | configurations of both kinds, the live one with its default queues |
| MuxLiveness.EndedRunsOut | src/avap/streammux.py:392-430 | with every source ended and settings under which nothing can get stuck, polling at the deadlines emits every queued frame in order and ends with the pipeline's eos |
| MuxLiveness.EveryRunCanEnd | src/avap/streammux.py:392-430 | that holds from every world of every run |
| MuxLiveness.RunOutExtends | src/avap/streammux.py:392-430 | those polls extend the run, at times that do not fall, with exactly that output, so what holds of runs holds of how they end |
| MuxDrain.PollShrinks | src/avap/streammux.py:392-418 | every poll that puts anything out strictly shrinks pending events + queued frames + open pads + the end itself, under any settings, so drain ends |
| MuxQuiet.QuietStays | src/avap/streammux.py:392-418 | under any settings: after a poll that put nothing out and dropped nothing, another at the same instant puts nothing out |
| MuxQuiet.QuietAgain | src/avap/streammux.py:392-418 | unless the new policy has sync and rate control together: after a poll that put nothing out, another at the same instant puts something out if and only if a pad has become drained |
| MuxQuiet.QuietExactly | src/avap/streammux.py:392-418 | under any settings: after a poll that put nothing out, another at the same instant puts something out if and only if a pad has become drained or the frames screened now make a batch that goes |
| MuxQuiet.GoesExactly | src/avap/streammux.py:532-583 | a batch of the new policy goes if and only if its round has frames, is full or due, and is not held back |
| MuxQuiet.ClosingExactly | src/avap/streammux.py:585-608 | a poll that put nothing out drains a pad if and only if all frames of an ending pad were late and within its rate allowance, for live legacy muxes and for new ones whose full round is not held back; other legacy muxes never |
| MuxQuiet.DrainIsQuiet | src/avap/streammux.py:411-418 | drain, whose polls may each read the clock, leaves nothing to put out at the time of its last poll without the sync filter; with it, exactly the ends of pads that poll drained, and with rate control too a batch that the next screening makes |
| MuxSyncRuns.DrainLeavesTheEnd | src/avap/streammux.py:411-418 | a run after which drain puts nothing out and drops the last frame of an ended pad, whose stream-eos and the eos come with the next poll |
| MuxSyncRuns.DrainLeavesABatch | src/avap/streammux.py:555-561 | with rate control as well, a run after which drain puts nothing out although the next poll at the same instant sends a frame |
| MuxPts.TimestampsExactly | src/avap/streammux.py:357-368 | outside live and sync modes the timestamp of every batch, for any durations: off and off + 250000 in turn until batch n0 teaches D, then off + n * D but for a collision at n0; n0 and D are those of every state of the run |
| MuxModes.LiveTimestamps | src/avap/streammux.py:465-475 | in every run of a live legacy mux every batch has pts max(0, push time - time origin), or 250000 more exactly if that is the pts of the batch before it |
| MuxModes.SyncTimestamps | src/avap/streammux.py:463-475 | in every run in sync mode every batch has the greatest of pts - first pts accepted on the pad over its frames, or 250000 more exactly if that is the pts of the batch before it |
| MuxModes.TimeBeginsAtFirstFrame | src/avap/streammux.py:300-301 | in every world the running time of a pad counts from the pts of the first frame it accepted |
| MuxOrigins.OffsetIs | src/avap/streammux.py:468-471 | timestamps that count batches start at 0 under the legacy policy and at the running time of the first frame under the new one |
| MuxOrigins.DurationLearned | src/avap/streammux.py:357-368 | a mux that counts batches learns its frame duration with a batch and keeps it: that of the pad of the first frame, if known, or else of the first pad in pad order that has one |
| MuxPts.TimestampsCountBatches | src/avap/streammux.py:462-475 | every batch from n0 on has pts offset + n * D and is later than all before it if and only if only one batch has gone out or D is positive and n0 at most 1 or n0 * D above 250000 |
| MuxPts.CollisionFallsBack | src/avap/streammux.py:471-474 | D = 125000 learned with batch 2 gives off + 500000 and then off + 375000, and no larger D fails |
| MuxPtsRuns.TimestampsFallBack | src/avap/streammux.py:462-475 | a run of four frames in which that happens |
| SyncSplit.ScanExactly | src/avap/streammux.py:585-608 | on any queue exactly the late frames before the first early one go, the others stay in order, and those kept before it are counted |
| SyncSplit.FilterIs | src/avap/streammux.py:585-608 | in the first period nothing goes and all may be taken, from then on exactly what the scan says |
| SyncSplit.WindowMeans | src/avap/streammux.py:588-600 | a frame is early if its time since the first frame of its pad exceeds the time since the origin less one period, late if the latency allowed does not make up for being earlier, on time in between, both bounds included |
| SyncSplit.ScanAgain | src/avap/streammux.py:593-608 | repeating the call at the same time drops nothing and counts the same |
| SyncSplit.ThreeWayExactly | src/avap/streammux.py:593-608 | the scan splits a queue into a late part that goes, an on-time part that is counted and an early part if and only if the classes late, on-time, early never fall along the queue |
| SyncSplit.ScanThreeWay | src/avap/streammux.py:593-608 | with timestamps in order: the late prefix goes, then the counted on-time block, then only early frames |
| MuxSyncRuns.LateInTheMiddle | src/avap/streammux.py:599-605 | a run of two accepted pushes after which the filter drops the second frame from behind the first |
| SinkPads.SinkPad.ScanLate | src/avap/streammux.py:593-608 | the deleting scan over the pad's queue does what the function says, dropped counter included |
| SinkPads.SinkPad.Accept | src/avap/streammux.py:285-328 | what push_frame does to the pad: recorded, then queued, or the producer waits, or the oldest frame makes room |
| StreamMux.StreamMux.ChooseFifo | src/avap/streammux.py:505-519 | the cap and break loop picks the frames of the function FifoPicks |
| StreamMux.StreamMux.ChooseLegacy | src/avap/streammux.py:482-520 | legacy batch formation updates queues and picks as specified, with the same decision to go |
| StreamMux.StreamMux.VisitGroup | src/avap/streammux.py:551-573 | the inner loop over one priority group, up to the batch being full and the cursor moving |
| StreamMux.StreamMux.ChooseNew | src/avap/streammux.py:532-582 | new-policy batch formation computes Form: groups, carried cursor, rate control, sync, throttle; what Form takes is said by MuxShares.EveryBatchIsShared, where it looks by MuxRound.RoundInOrder, when it goes by MuxQuiet.GoesExactly and MuxRate.RateIsKept |
| StreamMux.StreamMux.Emit | src/avap/streammux.py:432-454 | the frames removed one by one, their metadata and the counters are the batch and state of the specification; the frame removed is always the head of its queue |
| StreamMux.StreamMux.NextPts | src/avap/streammux.py:462-475 | the output timestamp and what is remembered of it; its value in the three modes is said by MuxPts.TimestampsExactly, MuxModes.LiveTimestamps and MuxModes.SyncTimestamps |
| StreamMux.StreamMux.ForwardEnds | src/avap/streammux.py:420-430 | exactly the drained pads end, with their notices in pad order |
| StreamMux.StreamMux.AddPad | src/avap/streammux.py:243-255 | one step of a run with its reply; an existing pad is refused |
| StreamMux.StreamMux.RemovePad | src/avap/streammux.py:257-264 | one step of a run; the frames closed are those queued |
| StreamMux.StreamMux.PushFrame | src/avap/streammux.py:274-328 | one step of a run with reply and closed frames, for open, ended, full and unknown pads; the stamp recorded is the one given, else the wall clock if attach_sys_ts, else 0 |
| StreamMux.StreamMux.ResumePush | src/avap/streammux.py:309-328 | the rest of a waiting push_frame is one step of a run |
| StreamMux.StreamMux.PushEos | src/avap/streammux.py:330-335 | one step of a run |
| StreamMux.StreamMux.Poll | src/avap/streammux.py:392-409 | one step of a run: the output, closed frames and new state are those of the specification |
| StreamMux.StreamMux.Drain | src/avap/streammux.py:411-418 | terminates and puts out what polling to the first silent poll puts out, at one instant or reading the clock for each poll |
| Greedy.Assign | src/avap/kalman_tracker.py:152-164 | the scan that stops at the threshold returns a map that is one to one, all pairs good enough, and where every admissible pair is in it or loses to a pair of it at least as good in its row or column |
| Greedy.MaxScoreAssignment | src/avap/nvdcf.py:692-706 | the scan without a threshold is one to one, and its good pairs form such a matching for any threshold |
| Greedy.GateLateOrEarly | src/avap/nvdcf.py:700-706 | dropping poor pairs afterwards equals stopping at the first poor cell |
| Greedy.GreedyIsGood | src/avap/kalman_tracker.py:155-163 | for every order a sort may produce the matching is one to one, gated, maximal and stable |
| Greedy.HalfOfTheBest | src/avap/kalman_tracker.py:145-164 | for any threshold, if no chosen cell has a negative score, no admissible matching is worth more than twice the greedy one |
| Greedy.IouNotNegative | src/avap/kalman_tracker.py:35-43 | an overlap is never negative |
| Greedy.IouIsShare | src/avap/kalman_tracker.py:35-43 | the overlap of boxes lies in [0, 1], is symmetric, 0 exactly without a common area, 1 for a box and itself, and times the area of the union it is the common area |
| Greedy.CommonIsGreatest | src/avap/kalman_tracker.py:36-40 | the common area is that of the greatest box inside both |
| Greedy.HalfOfTheBestOverlap | src/avap/kalman_tracker.py:145-164 | so for overlaps the factor two holds for every threshold |
| Greedy.HalfIsReached | src/avap/kalman_tracker.py:145-164 | a score matrix where it is worth exactly twice as much |
| Kalman.PredictDefinite | src/avap/kalman_tracker.py:64-68 | F P F' + Q keeps the covariance in 2x2 and 1x1 blocks, each positive definite |
| Kalman.UpdateDefinite | src/avap/kalman_tracker.py:70-77 | (I - K H) P, with any inverse of S, keeps them too |
| Kalman.InverseIsDiagonal | src/avap/kalman_tracker.py:73-74 | the innovation covariance is diagonal and positive, and a matrix inverts it if and only if it is the diagonal of the reciprocals |
| Kalman.MeasuredMovesToward | src/avap/kalman_tracker.py:72-76 | the gain of every measured quantity is inside (0, 1): it moves towards the measurement and never past it |
| Kalman.UpdateSurer | src/avap/kalman_tracker.py:73-77 | after a measurement each quantity is surer than the prediction and the measurement |
| ZeroNoise.InvertibleExactly | src/avap/nvdcf.py:360-361 | with variances that may be zero, S has an inverse if and only if every innovation has a positive variance |
| ZeroNoise.PredictSemidefinite | src/avap/nvdcf.py:351-354 | F P F' + Q keeps every block positive semidefinite |
| ZeroNoise.UpdateSemidefinite | src/avap/nvdcf.py:356-363 | so does (I - K H) P whenever S has an inverse |
| ZeroNoise.MeasuredWithin | src/avap/nvdcf.py:356-363 | a measured quantity moves towards the measurement, at most up to it, and is no less sure than prediction and measurement |
| BoxFilters.SortStaysPositive | src/avap/kalman_tracker.py:49-77 | in every run on boxes with an area, area and aspect ratio stay positive, S has exactly one inverse, gains are inside (0, 1) |
| BoxFilters.DcfStaysSane | src/avap/nvdcf.py:340-363 | for noise variances that may be zero, in every run width and height stay at least one pixel, S is invertible exactly if every innovation has a variance, its inverse is one and gains are inside [0, 1] |
| BoxFilters.NeverSingular | src/avap/nvdcf.py:356-363 | no run meets an S without inverse if and only if detector and tracker noise are positive |
| BoxFilters.DcfStaysDefinite | src/avap/nvdcf.py:340-363 | with noise in both measurements and the velocity, covariances stay definite and gains strictly inside (0, 1) |
| BoxFilters.SortFilter.PredictStep | src/avap/kalman_tracker.py:64-68 | the filter object's prediction, entry by entry: centre and area advance by their velocities, ratio and velocities stay, but an area that would not stay positive is kept and its velocity dropped; a positive area stays positive |
| BoxFilters.SortFilter.UpdateStep | src/avap/kalman_tracker.py:70-77 | the filter object's measurement: every entry is corrected by its covariance with each measured one over that one's innovation variance, times the innovation |
| BoxFilters.SecondBox | src/avap/kalman_tracker.py:57-77 | what a new track makes of a second box: 10011/10012 of the move of its centre, 10011/10021 of the growth of its area, 10.01/20.01 of the change of its ratio, and as velocities 10000/10012 of the move and 10000/10021 of the growth |
| BoxFilters.DcfFilter.PredictStep | src/avap/nvdcf.py:351-354 | prediction entry by entry: the centre advances, width and height become at least one pixel, velocities stay |
| BoxFilters.DcfFilter.UpdateStep | src/avap/nvdcf.py:356-363 | measurement by detector or tracker, with the filter left as it was where inverting S raises an error |
| BoxFilters.MeasuresOfBox | src/avap/kalman_tracker.py:20-27 | centre, area and aspect ratio of a box determine it: corners lie half a width and height off the centre |
| BoxFilters.SizeOfBox | src/avap/nvdcf.py:365-372 | a box comes back from centre and size, widened about its centre to one pixel where it is thinner |
| BoxFilters.NoiseOf | src/avap/nvdcf.py:340-349 | which configured variance stands for which entry, of prediction and of measurement by detector or tracker |
| NvDcfSafety.AssociationIsInjective | src/avap/nvdcf.py:640-664 | over both cascades and the tentative pass no detection and no target is matched twice |
| NvDcfSafety.UpdateKeepsInv | src/avap/nvdcf.py:464-573 | every frame keeps: slots shared out exactly, ids in order of creation, counts, filter ownership, ages |
| NvDcfSafety.SlotsArePartition | src/avap/nvdcf.py:432-440 | free slots and slots of targets partition 0 .. maxTargets - 1 without duplicates |
| NvDcfLife.FiltersBelongToTheirTargets | src/avap/nvdcf.py:577-602 | in every run slots are a partition, created - terminated is the number of targets, and a filter answer is only used if the filter in that slot was learned for that target |
| NvDcfLife.EveryFrameIsInOrder | src/avap/nvdcf.py:478-556 | in every run each detection above minDetectorConfidence comes out exactly once, no id twice in a frame, and an id only for a target past its probation |
| NvDcfLife.IdsAreNeverReused | src/avap/nvdcf.py:545-548 | an id whose target is gone names nothing and is shown by no frame again |
| NvDcfLife.ConfirmedStaysConfirmed | src/avap/nvdcf.py:497-530 | a confirmed target never turns tentative again and keeps its slot |
| NvDcfLife.Descends | src/avap/nvdcf.py:464-573 | a target after a frame is new under a fresh id or continues one that was there |
| NvDcfLife.Remains | src/avap/nvdcf.py:558-569 | a target that is not due to die is still there after the frame |
| NvDcfFates.FrameDecides | src/avap/nvdcf.py:468-569 | one frame in full, from ages, state and configuration: a target is there afterwards if and only if its shadow age then is at most maxShadowTrackingAge and, if tentative, below earlyTerminationAge, and what it then is |
| NvDcfFates.TentativeFate | src/avap/nvdcf.py:558-569 | in every run a tentative target with shadow age s that no detection matches in frames j to k - 1 is there after them if and only if s + (k - j) is below earlyTerminationAge and at most maxShadowTrackingAge |
| NvDcfFates.MatchesExactly | src/avap/nvdcf.py:604-664 | the pairs of a frame: of the solver's pairs, confirmed targets with confident detections, then tentative targets with those left, then the rest with the weak ones, each pass takes exactly the ones that meet every threshold |
| NvDcfFates.KindsAre | src/avap/nvdcf.py:479-481 | confident and weak detections are those on either side of tentativeDetectorConfidence, none below minDetectorConfidence, in the order they came |
| NvDcfFates.OutsTell | src/avap/nvdcf.py:496-556 | exactly what comes out: matched detections with the id of their target if confirmed by now, carried targets, other detections without an id |
| NvDcfFates.CreationDecides | src/avap/nvdcf.py:532-549 | a confident detection in turn gets a target if and only if nobody took it, no target there covers it and a slot is free |
| NvDcfFates.NewcomerIs | src/avap/nvdcf.py:544-548 | a target under a new id is tentative, with one hit, age one and nothing learned |
| NvDcfFates.BridgesAreCounted | src/avap/nvdcf.py:516-525 | visual_bridged grows by the targets put out on their filter's word |
| NvDcfLife.UnmatchedTargetsDie | src/avap/nvdcf.py:507-569 | a target no detection matches is gone after (V + 1)(M + 1) frames whatever its filter says |
| NvDcfLife.BoundIsReached | src/avap/nvdcf.py:507-569 | a confirmed target just matched can last all but the last of those frames |
| NvDcfBound.BoundIsReachedByRun | src/avap/nvdcf.py:464-573 | a run of a new tracker in which a target is found until it is confirmed and then lasts all but the last of those frames |
| NvDcfTracker.NvDcfTracker.UpdateFrame | src/avap/nvdcf.py:464-573 | the tracker object's frame computes state and output of Update and keeps the invariant; what Update does to each target is said by NvDcfFates.FrameDecides, CreationDecides and NewcomerIs, what it matches by MatchesExactly and what it puts out by OutsTell |
| NvDcfTracker.NvDcfTracker.TakePairs | src/avap/nvdcf.py:648-653 | the loop over the solver's pairs takes exactly the good ones |
| Stitch.FindNearest | scripts/tracking_sweep.py:61-72 | the search returns the nearest open track that joins, the first of equally near ones, or none if none joins |
| Stitch.GrowChain | scripts/tracking_sweep.py:58-79 | one chain, each link the nearest open track at that time, until none joins; the loop ends |
| Stitch.StitchTracks | scripts/tracking_sweep.py:54-81 | every track lands in exactly one chain, although heads are never marked, and is merged into it; of no two merged tracks does one begin within gap_max behind the end of the other and nearer than dist_max to it |
| Stitch.ChainsAreInTime | scripts/tracking_sweep.py:66-69 | members of a chain do not overlap in time; consecutive ones have a gap in (0, gap_max] and a distance below dist_max |
| Stitch.NothingLeftToStitch | scripts/tracking_sweep.py:60-80 | a merged track begins not behind another, or more than gap_max behind it, or at least dist_max from its end: stitching again changes nothing |
| Stitch.LengthIsConserved | scripts/tracking_sweep.py:76-80 | the merged tracks together are as long as the tracks |
| Letterbox.PlacedInside | src/avap/canvas.py:61-71 | the placed rectangle lies in the canvas, fills it in one direction and is centred to within a pixel |
| Letterbox.AspectError | src/avap/canvas.py:66-71 | unless a side is widened to one pixel, rounding bends the aspect ratio by less than a pixel of either side |
| Letterbox.MapsAreInverse | src/avap/muxed_pipeline.py:185-189 | unproject and the source-to-canvas affine undo each other for any region of interest |
| Letterbox.PlacementMapsToRegion | src/avap/canvas.py:50-54 | the placed rectangle maps back to exactly the region of interest |
| Letterbox.ClippedInFrame | src/avap/canvas.py:56-59 | clipped boxes lie in the frame, and a box of the frame survives the trip to the canvas and back |
| Letterbox.ClippedIsNearest | src/avap/canvas.py:57-60 | every clipped coordinate is the point of the frame nearest to the one unprojected |
| Letterbox.ClippedKeepsOrder | src/avap/canvas.py:57-60 | clipping never turns a box over |

## Left out

- Threads: `StreamMuxRunner`, its waits and its consumer callbacks, and `_SourceThread` beyond the discipline it imposes on producers; a poll is a step at any time that does not run backwards.
- Native code and its results: rendering, FFT, feature extraction, filter responses; they are inputs.
- SciPy's assignment: assumed to use no row and no column twice; the greedy branch is proved.
- Floating point rounding: `Fraction` arithmetic and the filters are exact reals, and `letterbox_geometry` rounds an exact quotient down.
- Timestamps in live and sync mode do not rise in general, the bump only separates neighbours: `MuxModes` states each value, not an order.
- Fairness when polls have full batches held back under `max_fps_control` does not hold (`MuxStarvation`); fairness across priority groups and of live legacy batches smaller than the pad set is not claimed.
- A partial batch under the legacy policy with an infinite timeout is never sent; the liveness theorems ask for a finite one. MuxCadence leaves out the sync filter, which can drop the frames the timer waits for as well.
- MuxPts.TimestampsCountBatches: for runs where `start` is called before the first frame, because a later call moves the origin the offset is measured from.
- MuxFairness.BoundedWaiting: for a fixed pad set, one priority group and polls that do not have a whole batch held back, because with several groups an earlier one can fill every batch, and such polls can starve a pad.
- The time `push_frame` records is read before it takes the lock, so two calls can take the lock in the other order than they read the clock; the runs have one clock in lock order that does not run backwards.
- The output a removed pad had is tied to the trace only up to its removal: what stays known of it is its settled ledger.
- Negative noise variances of the NvDCF configuration, which are no variances.
- A pad removed while its producer waits and added again under the same index: the old producer is taken to leave once the mux stops or the index is unused.
- `running_time` of the wall clock, NTP stamps beyond being passed on, and `MuxFrameMeta` fields that are constants.
- StreamMux.StreamMux.ChooseNew: the groups and their order are computed by the functions the loops are specified with, not by a loop over a dictionary.
- SORT's track list (`SortTracker.update`): hit counts and ages are a simpler form of the NvDCF life cycle.
- NvDCF targets are values in the tracker's list, not objects: what a caller could do to a target taken from the `targets` property is not captured.
- Labels, boxes and class votes of NvDCF targets: they do not influence the life cycle except through the scores, which are inputs.
- NvDCF statistics other than created, terminated and bridged.
- `_x_to_bbox` and its square root.
- BatchCanvas and all device memory; sinks, encoders and command line programs.
