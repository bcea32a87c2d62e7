/** The batch former as the program has it: a mux object with its pads, updated in
    place by every call. Each method is proved to do what MuxSpec says, and every
    call to be one step of a run. */
module StreamMux {
  import opened Shared
  import opened MuxTypes
  import opened MuxSpec
  import opened BatchSplit
  import opened LegacyBatch
  import opened MuxSteps
  import opened SinkPads
  import opened MuxDrain
  import opened MuxRuns
  import opened MuxInvariant
  import opened MuxSafety
  import MuxLiveness

  lemma NothingAdded(outs: seq<Output>)
    ensures outs + [] + [] == outs
  {
  }

  function LeftOver(m: Mux): nat
    requires Sound(m)
  {
    Left(m)
  }

  function Prepended(outs: seq<Output>, lost: seq<Pick>, picks: seq<Pick>, e: Effect): Effect {
    Effect(e.mux, outs + e.outs, lost + e.lost, picks + e.picks)
  }

  lemma PrependNothing(e: Effect)
    ensures Prepended([], [], [], e) == e
  {
  }

  /** One more poll of a drain. */
  lemma DrainOneMore(m: Mux, outs: seq<Output>, lost: seq<Pick>, picks: seq<Pick>, clock: nat -> int, k: nat)
    requires Sound(m)
    ensures AllIn(m.order, m.pads) && m.cfg.overallMaxFps > 0.0
    ensures var e := Poll(m, clock(k));
            var d := Prepended(outs, lost, picks, Drain(m, clock, k));
            && Sound(e.mux)
            && if e.outs == [] then d == Effect(e.mux, outs + e.outs, lost + e.lost, picks + e.picks) && LastPoll(m, clock, k) == k
               else LeftOver(e.mux) < LeftOver(m) && LastPoll(m, clock, k) == LastPoll(e.mux, clock, k + 1) &&
                    d == Prepended(outs + e.outs, lost + e.lost, picks + e.picks, Drain(e.mux, clock, k + 1))
  {
    SoundParts(m);
    PollShrinks(m, clock(k));
    hide Poll, Left, Sound;
    var e := Poll(m, clock(k));
    DrainUnfolds(m, clock, k);
    hide Drain, LastPoll;
    if e.outs != [] {
      PrependTwice(outs, lost, picks, e, Drain(e.mux, clock, k + 1));
    }
  }

  lemma DrainUnfolds(m: Mux, clock: nat -> int, k: nat)
    requires Sound(m)
    ensures AllIn(m.order, m.pads) && m.cfg.overallMaxFps > 0.0
    ensures var e := Poll(m, clock(k));
            && Sound(e.mux)
            && Drain(m, clock, k) == (if e.outs == [] then e else Prepended(e.outs, e.lost, e.picks, Drain(e.mux, clock, k + 1)))
            && LastPoll(m, clock, k) == if e.outs == [] then k else LastPoll(e.mux, clock, k + 1)
  {
    SoundParts(m);
    PollShrinks(m, clock(k));
    hide Poll, Left, Sound;
  }

  lemma PrependTwice(outs: seq<Output>, lost: seq<Pick>, picks: seq<Pick>, e: Effect, r: Effect)
    ensures Prepended(outs, lost, picks, Prepended(e.outs, e.lost, e.picks, r)) ==
            Prepended(outs + e.outs, lost + e.lost, picks + e.picks, r)
  {
    assert outs + (e.outs + r.outs) == outs + e.outs + r.outs;
    assert lost + (e.lost + r.lost) == lost + e.lost + r.lost;
    assert picks + (e.picks + r.picks) == picks + e.picks + r.picks;
  }

  lemma ClockGoesOn(clock: nat -> int, k: nat)
    requires Forward(clock)
    ensures clock(k) <= clock(k + 1)
  {
  }

  lemma PollClock(w: World, now: int, w': World)
    requires Follows(w, PollAt(now), w')
    ensures w'.clock == now
  {
    hide Poll;
  }

  class StreamMux {
    const cfg: MuxConfig
    var pads: map<int, SinkPad>
    var padOrder: seq<int>
    var batchIndex: nat
    var base: Option<int>
    var firstPush: Option<int>
    var firstPad: Option<int>
    var firstDuration: int
    var pendingEvents: seq<Event>
    var eosSent: bool
    var prevPts: Option<int>
    var lastBatch: Option<int>
    var rrPriority: nat
    var rrSource: nat
    var stopping: bool
    var stats: Stats
    /** The run so far, as an observer of all calls has it. */
    ghost var world: World

    /** The value of every pad. */
    function PadValues(): map<int, Pad>
      reads this`pads, pads.Values
    {
      map i | i in pads :: pads[i].Value()
    }

    function Model(): Mux
      reads this, pads.Values
    {
      Mux(cfg, PadValues(), padOrder, batchIndex, base, firstPush, firstPad, firstDuration, pendingEvents, eosSent,
          prevPts, lastBatch, rrPriority, rrSource, stopping, stats)
    }

    lemma Fields()
      ensures Model().pads == PadValues() && Model().cfg == cfg && Model().order == padOrder && Model().base == base
      ensures Model().rrPriority == rrPriority && Model().rrSource == rrSource && Model().lastBatch == lastBatch
      ensures Model().pads == map[] <==> |pads| == 0
      ensures Model().pads.Keys == pads.Keys
    {
      assert PadValues().Keys == pads.Keys;
    }

    lemma BlankFields()
      ensures var b := Blank(Model());
              b.pads == PadValues() && b.picks == [] && b.late == [] && b.rrPriority == rrPriority && b.rrSource == rrSource &&
              b.pads == Model().pads && PicksIn(b.pads, [])
      ensures Model().cfg == cfg && Model().base == base
    {
    }

    function RunningTime(now: int): (r: int)
      reads this, pads.Values
      ensures r == Model().RunningTime(now)
    {
      if base.None? then 0 else Max(0, now - base.value)
    }

    /** Every reachable state is one of a run, and the run is accounted for. */
    ghost predicate Valid()
      reads this, pads.Values
    {
      world.mux == Model() && Inv(world)
    }

    constructor (cfg: MuxConfig, ghost clock: int)
      requires cfg.Valid()
      ensures Valid() && Model() == NewMux(cfg) && world == NewWorld(cfg, clock)
    {
      this.cfg := cfg;
      pads, padOrder := map[], [];
      batchIndex, base, firstPush, firstPad, firstDuration := 0, None, None, None, 0;
      pendingEvents, eosSent, prevPts, lastBatch := [], false, None, None;
      rrPriority, rrSource, stopping, stats := 0, 0, false, Stats(0, 0, 0, 0);
      world := NewWorld(cfg, clock);
      new;
      NewWorldOk(cfg, clock);
    }

    // -------------------------------------------------------------- lifecycle

    method Begin(now: int)
      requires Model().WellFormed()
      modifies this`base, this`stopping
      ensures Model() == MuxSpec.Start(old(Model()), now)
    {
      hide PadValues;
      base := Some(now);
      stopping := false;
    }

    method Halt()
      requires Model().WellFormed()
      modifies this`stopping
      ensures Model() == MuxSpec.Stop(old(Model()))
    {
      hide PadValues;
      stopping := true;
    }

    // -------------------------------------------------------------- pads

    method FilePad(i: int, pad: SinkPad)
      modifies this`pads
      ensures Model() == old(Model()).(pads := old(Model()).pads[i := pad.Value()])
    {
      pads := pads[i := pad];
      assert PadValues() == old(PadValues())[i := pad.Value()];
      hide PadValues;
    }

    method UnfilePad(i: int)
      modifies this`pads
      ensures Model() == old(Model()).(pads := old(Model()).pads - {i})
    {
      pads := pads - {i};
      assert PadValues() == old(PadValues()) - {i};
      hide PadValues;
    }

    method ListPad(i: int, sourceId: int)
      modifies this`padOrder, this`eosSent, this`pendingEvents
      ensures var m := old(Model());
              Model() == m.(order := m.order + [i], eosSent := false, pending := m.pending + [PadAdded(i, sourceId)])
    {
      hide PadValues;
      padOrder := padOrder + [i];
      eosSent := false;
      pendingEvents := pendingEvents + [PadAdded(i, sourceId)];
    }

    method UnlistPad(i: int, sourceId: int, queued: nat)
      modifies this`padOrder, this`stats, this`pendingEvents
      ensures var m := old(Model());
              Model() == m.(order := Without(m.order, i),
                            stats := m.stats.(droppedOverflow := m.stats.droppedOverflow + queued),
                            pending := m.pending + [PadDeleted(i, sourceId)])
    {
      hide PadValues, Without;
      padOrder := Without(padOrder, i);
      stats := stats.(droppedOverflow := stats.droppedOverflow + queued);
      pendingEvents := pendingEvents + [PadDeleted(i, sourceId)];
    }

    method InsertPad(i: int, sourceId: Option<int>, scfg: Option<SourceConfig>) returns (reply: Reply)
      modifies this`pads, this`padOrder, this`eosSent, this`pendingEvents
      ensures (Model(), reply) == MuxSpec.AddPad(old(Model()), i, sourceId, scfg)
    {
      Fields();
      hide Model, PadValues, NewPad;
      if i in pads {
        return PadExists;
      }
      var pad := new SinkPad(i, sourceId, scfg, cfg);
      var value := pad.Value();
      FilePad(i, pad);
      ListPad(i, value.sourceId);
      return Returned(true);
    }

    /** `lost` are the frames that are closed. */
    method DeletePad(i: int) returns (reply: Reply, lost: seq<Pick>)
      modifies this`pads, this`padOrder, this`stats, this`pendingEvents
      ensures (Effect(Model(), [], lost, []), reply) == MuxSpec.RemovePad(old(Model()), i)
    {
      Fields();
      if i !in pads {
        return NoSuchPad, [];
      }
      var pad := pads[i].Value();
      assert PadValues()[i] == pad;
      hide Model, PadValues, Without, Tagged;
      UnfilePad(i);
      UnlistPad(i, pad.sourceId, |pad.queue|);
      return Returned(true), Tagged(i, pad.queue);
    }

    // -------------------------------------------------------------- inputs

    /** Every pad is filed under its own index. */
    ghost predicate Filed()
      reads this`pads
    {
      forall i :: i in pads ==> pads[i].padIndex == i
    }

    lemma WellFormedFiled()
      requires Model().WellFormed()
      ensures Filed()
    {
      forall i | i in pads ensures pads[i].padIndex == i {
        assert Model().pads[i] == pads[i].Value();
      }
    }

    lemma DistinctPads(i: int)
      requires Filed() && i in pads
      ensures forall j :: j in pads && j != i ==> pads[j] != pads[i]
    {
    }

    /** Writing to pad `i` changes its value and no other. */
    twostate lemma OnlyPad(i: int)
      requires pads == old(pads) && i in pads
      requires forall j :: j in pads && j != i ==> pads[j].Value() == old(pads[j].Value())
      ensures PadValues() == old(PadValues())[i := pads[i].Value()]
    {
    }

    /** The first frame of all starts the clocks; it counts as batch number zero. */
    method NoteArrival(i: int, now: int)
      modifies this`base, this`firstPush, this`firstPad, this`lastBatch
      ensures Model() == Noted(old(Model()), i, now)
    {
      hide PadValues;
      if base.None? {
        base := Some(now);
      }
      if firstPush.None? {
        firstPush, firstPad, lastBatch := Some(now), Some(i), Some(now);
      }
    }

    method QueueOn(i: int, a: Arrival, duration: int, now: int) returns (reply: Reply, lost: seq<Pick>)
      requires Model().WellFormed() && i in pads
      modifies this`pendingEvents, this`stats, pads.Values
      ensures (Effect(Model(), [], lost, []), reply) == PushOpen(old(Model()), i, a, duration, now)
    {
      hide PushPad, Tagged;
      WellFormedFiled();
      DistinctPads(i);
      var pad := pads[i];
      assert Model().pads[i] == pad.Value();
      hide Mux.WellFormed;
      if !pad.segmentSent {
        pendingEvents := pendingEvents + [StreamSegment(i, pad.sourceId, a.pts)];
      }
      var closed;
      reply, closed := pad.Accept(cfg, a, duration, now);
      stats := stats.(droppedOverflow := stats.droppedOverflow + |closed|);
      lost := Tagged(i, closed);
      OnlyPad(i);
    }

    /** push_frame up to its return or its wait; `lost` are the queued frames closed
        to make room. A refused payload is the caller's to close. */
    method Offer(i: int, payload: int, pts: int, width: int, height: int, ntp: Option<int>, wall: int,
                     duration: int, now: int) returns (reply: Reply, lost: seq<Pick>)
      requires Model().WellFormed()
      modifies this`base, this`firstPush, this`firstPad, this`lastBatch, this`pendingEvents, this`stats, pads.Values
      ensures (Effect(Model(), [], lost, []), reply) ==
              Push(old(Model()), i, Arrival(payload, pts, width, height,
                                      match ntp case Some(t) => t case None => if cfg.attachSysTs then wall else 0), duration, now)
    {
      if i !in pads {
        return NoSuchPad, [];
      }
      if pads[i].eosPending || pads[i].eos {
        return Returned(false), [];
      }
      hide PushOpen, Noted;
      NoteArrival(i, now);
      reply, lost := QueueOn(i, Arrival(payload, pts, width, height, StampNtp(cfg, ntp, wall)), duration, now);
    }

    /** The waiting producer of pad `i` leaves push_frame. */
    method Admit(i: int, now: int) returns (reply: Reply)
      requires Model().WellFormed() && CanResume(Model(), i)
      modifies pads.Values
      ensures (Model(), reply) == Resume(old(Model()), i, now)
    {
      hide Append;
      var pad := pads[i];
      WellFormedFiled();
      assert Model().pads[i] == pad.Value();
      hide Mux.WellFormed;
      DistinctPads(i);
      var taken := pad.LeaveWait(stopping, now);
      OnlyPad(i);
      return Returned(taken);
    }

    method EndInput(i: int) returns (reply: Reply)
      requires Model().WellFormed()
      modifies pads.Values
      ensures (Model(), reply) == MuxSpec.PushEos(old(Model()), i)
    {
      if i !in pads {
        return NoSuchPad;
      }
      var pad := pads[i];
      WellFormedFiled();
      DistinctPads(i);
      if !pad.eos && !pad.eosPending {
        pad.eosPending := true;
        OnlyPad(i);
      }
      return Returned(true);
    }

    // -------------------------------------------------------------- end of stream

    method CloseOne(i: int) returns (events: seq<Event>)
      requires Filed() && i in PadValues()
      modifies pads.Values
      ensures var p := old(PadValues())[i];
              && PadValues() == old(PadValues())[i := ClosePad(cfg, p)]
              && events == if Closing(p) then [StreamEos(p.index, p.sourceId)] else []
    {
      hide ClosePad, Closing;
      DistinctPads(i);
      events := pads[i].CloseIfDrained(cfg);
      OnlyPad(i);
    }

    method ForwardEnds() returns (events: seq<Event>)
      requires Model().WellFormed()
      modifies pads.Values
      ensures Model() == MuxSpec.ForwardEos(old(Model()))
      ensures events == EosNotices(old(Model()).pads, old(Model()).order)
    {
      hide ClosePad, Closing, PadValues, MuxSpec.ForwardEos;
      ghost var m := Model();
      WellFormedFiled();
      events := [];
      for k := 0 to |padOrder|
        invariant ClosedUpTo(cfg, m.pads, PadValues(), padOrder[..k])
        invariant AllIn(padOrder[..k], m.pads) && events == EosNotices(m.pads, padOrder[..k])
      {
        CloseOneMore(cfg, m.pads, PadValues(), padOrder, k);
        hide EosNotices, ClosedUpTo;
        assert padOrder[k] in PadValues();
        var closed := CloseOne(padOrder[k]);
        events := events + closed;
      }
      hide EosNotices;
      assert padOrder[..|padOrder|] == padOrder;
      ClosedAll(m, PadValues());
    }

    // -------------------------------------------------------------- emission

    method TakeFrame(i: int, q: Queued, slot: nat) returns (frame: FrameMeta)
      requires Filed() && i in PadValues() && PadValues()[i].queue != [] && PadValues()[i].queue[0] == q
      modifies pads.Values
      ensures var p := old(PadValues())[i];
              && PadValues() == old(PadValues())[i := p.(queue := p.queue[1..], frameCount := p.frameCount + 1)]
              && frame == FrameMeta(p.index, p.sourceId, slot, if cfg.policy == Legacy then q.seqNum else p.frameCount,
                                    q.pts, q.ntp, q.width, q.height, q.payload, q.recv)
    {
      DistinctPads(i);
      var number := pads[i].Give(q);
      OnlyPad(i);
      return FrameMeta(pads[i].padIndex, pads[i].sourceId, slot, if cfg.policy == Legacy then q.seqNum else number,
                       q.pts, q.ntp, q.width, q.height, q.payload, q.recv);
    }

    method TakeFrames(picks: seq<Pick>) returns (frames: seq<FrameMeta>)
      requires Model().WellFormed() && PrefixPicks(Model(), picks)
      modifies pads.Values
      ensures PadValues() == GaveAll(old(Model()).pads, picks)
      ensures frames == Metas(old(Model()), picks)
    {
      hide On, Gave, PadValues, GaveAll, Mux.WellFormed;
      ghost var m := Model();
      WellFormedFiled();
      assert PicksIn(m.pads, picks);
      hide PrefixPicks;
      GaveNothing(m.pads);
      frames := [];
      for k := 0 to |picks|
        invariant PadValues() == GaveAll(m.pads, picks[..k])
        invariant frames == Metas(m, picks)[..k]
      {
        GiveOneMore(m, picks, k);
        var frame := TakeFrame(picks[k].pad, picks[k].q, k);
        assert frame == Meta(m, picks, k);
        frames := frames + [frame];
      }
      assert picks[..|picks|] == picks;
    }

    method MarkOne(i: int, now: int)
      requires Filed() && i in PadValues()
      modifies pads.Values
      ensures PadValues() == old(PadValues())[i := old(PadValues())[i].(lastPush := Some(now))]
    {
      DistinctPads(i);
      pads[i].lastPush := Some(now);
      OnlyPad(i);
    }

    method MarkPushed(picks: seq<Pick>, now: int)
      requires Filed() && PicksIn(PadValues(), picks)
      modifies pads.Values
      ensures PadValues() == Mark(old(PadValues()), PadsOf(picks), now)
    {
      ghost var before := PadValues();
      assert forall i :: i in PadsOf(picks) ==> i in before;
      hide PadValues, Mux.WellFormed, Mark, PadsOf, PicksIn;
      MarkNothing(before, now);
      var todo := PadsOf(picks);
      assert PadsOf(picks) - todo == {};
      while todo != {}
        invariant todo <= PadsOf(picks)
        invariant PadValues() == Mark(before, PadsOf(picks) - todo, now)
      {
        var i :| i in todo;
        MarkOneMore(before, PadsOf(picks) - todo, i, now);
        MarkOne(i, now);
        assert PadsOf(picks) - (todo - {i}) == PadsOf(picks) - todo + {i};
        todo := todo - {i};
      }
      assert PadsOf(picks) - {} == PadsOf(picks);
    }

    method FirstKnown() returns (d: int)
      requires AllIn(padOrder, PadValues())
      ensures d == FirstKnownDuration(PadValues(), padOrder)
    {
      d := 0;
      for k := 0 to |padOrder|
        invariant FirstKnownDuration(PadValues(), padOrder) == FirstKnownDuration(PadValues(), padOrder[k..])
      {
        assert padOrder[k..][0] == padOrder[k] && padOrder[k..][1..] == padOrder[k + 1..];
        assert padOrder[k] in PadValues();
        if pads[padOrder[k]].frameDuration != 0 {
          return pads[padOrder[k]].frameDuration;
        }
      }
    }

    /** The frame duration of the source that pushed first, or of the first pad that
        knows one; the first answer stays. */
    method FrameDurationForPts() returns (d: int)
      requires AllIn(padOrder, PadValues())
      modifies this`firstDuration
      ensures d == FrameDuration(old(Model())) && Model() == old(Model()).(firstDuration := d)
    {
      hide FirstKnownDuration, AllIn;
      if firstDuration == 0 {
        var first := if firstPad.Some? then firstPad.value else 0;
        assert PadValues().Keys == pads.Keys;
        assert first in pads ==> PadValues()[first] == pads[first].Value();
        if firstPad.Some? && first in pads && pads[first].frameDuration != 0 {
          firstDuration := pads[first].frameDuration;
        } else {
          firstDuration := FirstKnown();
        }
      }
      return firstDuration;
    }

    method LatestFrame(frames: seq<FrameMeta>, ghost picks: seq<Pick>) returns (latest: int)
      requires frames != [] && AreOf(frames, picks) && PicksIn(PadValues(), picks)
      ensures latest == LatestRunningTime(Model(), picks)
    {
      latest := pads[frames[0].padIndex].Value().RunningTime(frames[0].pts);
      for k := 1 to |frames|
        invariant latest == LatestRunningTime(Model(), picks[..k])
      {
        assert picks[..k + 1][..k] == picks[..k];
        latest := Max(latest, pads[frames[k].padIndex].Value().RunningTime(frames[k].pts));
      }
      assert picks[..|picks|] == picks;
    }

    method UnbumpedPts(frames: seq<FrameMeta>, ghost picks: seq<Pick>, now: int) returns (pts: int)
      requires Model().WellFormed() && frames != [] && AreOf(frames, picks) && PicksIn(PadValues(), picks)
      modifies this`firstDuration
      ensures pts == BasePts(old(Model()), picks, now)
      ensures Model() == old(Model()).(
                firstDuration := if CountsBatches(cfg) then FrameDuration(old(Model())) else old(firstDuration))
    {
      hide FrameDuration, LatestRunningTime, PadValues;
      if cfg.syncInputs {
        pts := LatestFrame(frames, picks);
      } else if cfg.policy == Legacy && cfg.liveSource {
        pts := RunningTime(now);
      } else {
        var d := FrameDurationForPts();
        pts := batchIndex * d;
        if cfg.policy == New {
          pts := pts + (match firstPush case None => 0 case Some(t) => t) - (match base case None => 0 case Some(t) => t);
        }
      }
    }

    method NextPts(frames: seq<FrameMeta>, ghost picks: seq<Pick>, now: int) returns (pts: int)
      requires Model().WellFormed() && frames != [] && AreOf(frames, picks) && PicksIn(Model().pads, picks)
      modifies this`firstDuration, this`prevPts
      ensures pts == OutputPts(old(Model()), picks, now)
      ensures Model() == WithPts(old(Model()), pts)
    {
      hide FrameDuration, BasePts, PadValues, CountsBatches;
      pts := UnbumpedPts(frames, picks, now);
      if prevPts == Some(pts) {
        pts := pts + PTS_BUMP;
      }
      prevPts := Some(pts);
    }

    /** NvDsBatchMeta.max_frames_in_batch. */
    function ConfigBatchSize(): (r: int)
      reads this, pads.Values
      ensures r == MaxFramesInBatch(Model())
    {
      assert PadValues().Keys == pads.Keys;
      if cfg.policy == New && cfg.adaptive then Max(cfg.batchSize, |pads|) else cfg.batchSize
    }

    method MovePicks(picks: seq<Pick>, now: int) returns (frames: seq<FrameMeta>)
      requires Model().WellFormed() && PrefixPicks(Model(), picks)
      modifies pads.Values
      ensures Model() == old(Model()).(pads := TakeAll(old(Model()), picks, now))
      ensures frames == Metas(old(Model()), picks)
    {
      ghost var m := Model();
      assert PicksIn(m.pads, picks);
      GivenAndMarked(m, picks, now);
      WellFormedFiled();
      hide PadValues, Mark, GaveAll, PadsOf, TakeAll, PrefixPicks, Filed;
      frames := TakeFrames(picks);
      MarkPushed(picks, now);
    }

    /** The batch is numbered and counted. */
    method Package(frames: seq<FrameMeta>, pts: int, now: int) returns (batch: Batch)
      modifies this`batchIndex, this`lastBatch, this`stats
      ensures var m := old(Model());
              && batch == Batch(frames, pts, m.batchIndex, MaxFramesInBatch(m), now)
              && Model() == m.(batchIndex := m.batchIndex + 1,
                               lastBatch := Some(now),
                               stats := m.stats.(batches := m.stats.batches + 1, frames := m.stats.frames + |frames|))
    {
      hide PadValues;
      batch := Batch(frames, pts, batchIndex, ConfigBatchSize(), now);
      batchIndex := batchIndex + 1;
      lastBatch := Some(now);
      stats := stats.(batches := stats.batches + 1, frames := stats.frames + |frames|);
    }

    /** The picked frames leave their queues and become the batch. */
    method Emit(picks: seq<Pick>, now: int) returns (batch: Batch)
      requires Model().WellFormed() && picks != [] && PrefixPicks(Model(), picks)
      modifies this`firstDuration, this`prevPts, this`batchIndex, this`lastBatch, this`stats, pads.Values
      ensures Model() == EmitMux(old(Model()), picks, now) && batch == EmitBatch(old(Model()), picks, now)
    {
      hide *;
      ghost var m := Model();
      EmitSteps(m, picks, now);
      var frames := MovePicks(picks, now);
      var pts := NextPts(frames, picks, now);
      batch := Package(frames, pts, now);
    }

    // -------------------------------------------------------------- sync filter

    /** `m` is the mux the batch is formed for; only its settings and its base matter. */
    method FilterSync(i: int, avail: int, now: int, ghost m: Mux) returns (onTime: int, late: seq<Queued>)
      requires Filed() && i in PadValues() && m.cfg == cfg && m.base == base
      modifies pads.Values, this`stats
      ensures var p := old(PadValues())[i];
              var s := SyncFilter(m, p, avail, now);
              && onTime == s.onTime && late == s.late && PadValues() == old(PadValues())[i := Thin(p, s)]
              && stats == old(stats).(droppedLate := old(stats).droppedLate + |s.late|)
    {
      hide SyncScan;
      DistinctPads(i);
      var minDur, cur := cfg.MinFpsDurOrZero(), RunningTime(now);
      assert cur == m.RunningTime(now);
      if cur < minDur {
        return avail, [];
      }
      onTime, late := pads[i].ScanLate(avail, cur, minDur, cfg.maxLatency);
      stats := stats.(droppedLate := stats.droppedLate + |late|);
      OnlyPad(i);
    }

    // -------------------------------------------------------------- legacy policy

    /** One slot for the source, its oldest frame. */
    method VisitLivePad(i: int, now: int, picks: seq<Pick>, ghost m: Mux, ghost f: Forming)
      returns (picks': seq<Pick>, late: seq<Pick>)
      requires Filed() && i in f.pads && m.cfg == cfg && m.base == base
      requires f.pads == PadValues() && f.picks == picks && PicksIn(f.pads, picks)
      modifies pads.Values, this`stats
      ensures var g := VisitLive(m, f, i, now);
              && PadValues() == g.pads && picks' == g.picks && g.late == f.late + late
              && stats == old(stats).(droppedLate := old(stats).droppedLate + |late|)
    {
      hide SyncFilter, PicksIn;
      var avail, closed := |pads[i].queue|, [];
      FilterFits(m, f.pads[i], avail, now);
      if cfg.syncInputs {
        avail, closed := FilterSync(i, avail, now, m);
      }
      assert PadValues()[i] == pads[i].Value();
      late := Tagged(i, closed);
      picks' := picks;
      if avail != 0 && |picks| < cfg.batchSize {
        picks' := picks + [Pick(i, pads[i].queue[0])];
      }
    }

    method ChooseLive(active: seq<int>, now: int) returns (picks: seq<Pick>, late: seq<Pick>)
      requires Filed() && AllIn(active, PadValues())
      modifies pads.Values, this`stats
      ensures var f := FormLive(old(Model()), active, now);
              && Model() == Formed(old(Model()), f) && picks == f.picks && late == f.late
    {
      hide *;
      ghost var m := Model();
      Fields();
      BlankFields();
      FormLiveCursor(m, active, now);
      LiveNothing(m, active, now);
      picks, late := [], [];
      for k := 0 to |active|
        invariant AllIn(active[..k], m.pads)
        invariant var f := FormLive(m, active[..k], now); PadValues() == f.pads && picks == f.picks && late == f.late
        invariant stats == old(stats).(droppedLate := old(stats).droppedLate + |late|)
      {
        FormLiveOneMore(m, active, k, now);
        var closed;
        picks, closed := VisitLivePad(active[k], now, picks, m, FormLive(m, active[..k], now));
        late := late + closed;
      }
      assert active[..|active|] == active;
      FormedInto(FormLive(m, active, now));
    }

    /** Batch formation changes the queues, the cursor and one counter. */
    twostate lemma FormedInto(f: Forming)
      requires f.pads == PadValues() && f.rrPriority == rrPriority && f.rrSource == rrSource
      requires stats == old(stats).(droppedLate := old(stats).droppedLate + |f.late|)
      requires unchanged(this`padOrder, this`batchIndex, this`base, this`firstPush, this`firstPad, this`firstDuration,
                         this`pendingEvents, this`eosSent, this`prevPts, this`lastBatch, this`stopping)
      ensures Model() == Formed(old(Model()), f)
    {
      hide PadValues;
    }

    /** The frames in order of arrival, skipping the sources at their cap. */
    method ChooseFifo(active: seq<int>) returns (picks: seq<Pick>)
      requires AllIn(active, PadValues()) && cfg.batchSize > 0
      ensures picks == FifoPicks(Model(), active)
    {
      hide AllIn, Sort, AllQueued, On, Counts, Eligible, PadValues;
      var items, cap := Sort(AllQueued(PadValues(), active)), cfg.maxSameLegacy;
      var perSource: map<int, nat> := map[];
      picks := [];
      FifoNothing(items, cap);
      for k := 0 to |items|
        invariant picks == Eligible(items[..k], cap) && |picks| < cfg.batchSize && Counts(perSource, picks)
      {
        var x := items[k];
        EligibleOneMore(items, cap, k);
        CountOf(perSource, picks, x.pad);
        if Count(perSource, x.pad) >= cap {
          continue;
        }
        CountsOneMore(perSource, picks, x);
        picks := picks + [x];
        perSource := perSource[x.pad := Count(perSource, x.pad) + 1];
        if |picks| >= cfg.batchSize {
          EligiblePrefix(items, cap, k + 1);
          return;
        }
      }
      assert items[..|items|] == items;
    }

    method ChooseLegacy(now: int) returns (picks: seq<Pick>, late: seq<Pick>, go: bool)
      requires Model().WellFormed()
      modifies pads.Values, this`stats
      ensures var f := FormLegacy(old(Model()), now);
              Model() == Formed(old(Model()), f) && picks == f.picks && late == f.late && go == f.go
    {
      hide *;
      ghost var m := Model();
      Fields();
      WellFormedFiled();
      WellFormedAllIn(m);
      var active := Active(PadValues(), padOrder);
      LegacyCases(m, now);
      if cfg.batchSize <= 0 || active == [] {
        return [], [], false;
      }
      var timeout, start := cfg.TimeoutNs(), LegacyTimerStart(Model());
      var due := start.Some? && timeout.Some? && now >= start.value + timeout.value;
      if cfg.liveSource {
        picks, late := ChooseLive(active, now);
        return picks, late, |picks| >= Min(cfg.batchSize, |active|) || due;
      } else {
        picks := ChooseFifo(active);
        return picks, [], |picks| >= cfg.batchSize || due;
      }
    }

    // -------------------------------------------------------------- new policy

    /** What the source may give: its queue, less what rate control holds back and
        the sync filter drops. */
    method ScreenPad(i: int, now: int, ghost m: Mux) returns (avail: int, closed: seq<Queued>)
      requires Filed() && i in PadValues() && m.cfg == cfg && m.base == base
      modifies pads.Values, this`stats
      ensures var p := old(PadValues())[i];
              var s := Screen(m, p, now);
              && avail == s.onTime && closed == s.late && PadValues() == old(PadValues())[i := Thin(p, s)]
              && stats == old(stats).(droppedLate := old(stats).droppedLate + |s.late|)
    {
      ScreenFits(m, PadValues()[i], now);
      hide SyncFilter, Screen;
      avail, closed := |pads[i].queue|, [];
      if cfg.rateControl && pads[i].lastPush.Some? {
        avail := Min(avail, RateAllowance(pads[i].Value(), now));
      }
      if cfg.syncInputs {
        avail, closed := FilterSync(i, avail, now, m);
      }
    }

    method TakeFirst(i: int, n: int) returns (taken: seq<Pick>)
      requires i in pads && n <= |pads[i].queue|
      ensures taken == Tagged(i, pads[i].queue[..Max(0, n)])
    {
      taken := [];
      for k := 0 to Max(0, n)
        invariant taken == Tagged(i, pads[i].queue[..k])
      {
        TaggedOne(i, pads[i].queue, k);
        taken := taken + [Pick(i, pads[i].queue[k])];
      }
    }

    method VisitPad(i: int, now: int, bs: int, picks: seq<Pick>, ghost m: Mux, ghost f: Forming)
      returns (picks': seq<Pick>, late: seq<Pick>)
      requires Filed() && i in f.pads && m.cfg == cfg && m.base == base
      requires f.pads == PadValues() && f.picks == picks && PicksIn(f.pads, picks)
      modifies pads.Values, this`stats
      ensures var g := Visit(m, f, i, now, bs);
              && PadValues() == g.pads && picks' == g.picks && g.late == f.late + late
              && g.rrPriority == f.rrPriority && g.rrSource == f.rrSource && g.go == f.go
              && stats == old(stats).(droppedLate := old(stats).droppedLate + |late|)
    {
      ghost var s := Screen(m, f.pads[i], now);
      VisitFrom(m, f, i, now, bs, s);
      hide Screen, Visit, PicksIn;
      var p := pads[i].Value();
      if p.Done() {
        return picks, [];
      }
      var avail, closed := ScreenPad(i, now, m);
      assert PadValues()[i] == pads[i].Value();
      var taken := TakeFirst(i, Min(Min(avail, AllowedRepeats(cfg, p, bs)), bs - |picks|));
      return picks + taken, Tagged(i, closed);
    }

    /** One group of the round, cyclically from `start`. `f` is the batch so far,
        `rest` the round behind this group. A full batch moves the cursor. */
    method VisitGroup(srcs: seq<int>, start: nat, pos: nat, now: int, bs: int, picks: seq<Pick>,
                      ghost m: Mux, ghost f: Forming, ghost rest: seq<Entry>)
      returns (picks': seq<Pick>, late: seq<Pick>, ghost f': Forming)
      requires Filed() && m.cfg == cfg && m.base == base && (srcs != [] ==> start < |srcs|)
      requires f.pads == PadValues() && f.picks == picks && PicksIn(f.pads, picks) && |picks| < bs
      requires f.rrPriority == rrPriority && f.rrSource == rrSource
      requires EntriesIn(GroupEntries(srcs, start, pos) + rest, f.pads)
      modifies pads.Values, this`stats, this`rrPriority, this`rrSource
      ensures f'.pads == PadValues() && f'.picks == picks' && f'.late == f.late + late && PicksIn(f'.pads, picks')
      ensures f'.rrPriority == rrPriority && f'.rrSource == rrSource
      ensures stats == old(stats).(droppedLate := old(stats).droppedLate + |late|)
      ensures |picks'| < bs ==> EntriesIn(rest, f'.pads)
      ensures Fill(m, f, GroupEntries(srcs, start, pos) + rest, now, bs) ==
              if |picks'| >= bs then f' else Fill(m, f', rest, now, bs)
    {
      hide *;
      GroupLength(srcs, start, pos);
      picks', late, f' := picks, [], f;
      assert GroupEntries(srcs, start, pos)[0..] == GroupEntries(srcs, start, pos);
      for si := 0 to |srcs|
        invariant f'.pads == PadValues() && f'.picks == picks' && f'.late == f.late + late && PicksIn(f'.pads, picks')
        invariant f'.rrPriority == rrPriority && f'.rrSource == rrSource && |picks'| < bs
        invariant stats == old(stats).(droppedLate := old(stats).droppedLate + |late|)
        invariant |GroupEntries(srcs, start, pos)| == |srcs|
        invariant EntriesIn(GroupEntries(srcs, start, pos)[si..] + rest, f'.pads)
        invariant Fill(m, f, GroupEntries(srcs, start, pos) + rest, now, bs) ==
                  Fill(m, f', GroupEntries(srcs, start, pos)[si..] + rest, now, bs)
      {
        GroupTurn(srcs, start, pos, si, rest);
        var i := srcs[Turn(start, si, |srcs|)];
        FillOneMore(m, f', GroupEntries(srcs, start, pos)[si..] + rest, now, bs);
        var closed;
        picks', closed := VisitPad(i, now, bs, picks', m, f');
        late := late + closed;
        f' := Visit(m, f', i, now, bs);
        if |picks'| >= bs {
          rrSource, rrPriority := After(start, si, |srcs|), pos;
          f' := f'.(rrPriority := pos, rrSource := After(start, si, |srcs|));
          return;
        }
      }
      assert GroupEntries(srcs, start, pos)[|srcs|..] + rest == rest;
    }

    /** The rounds through all groups; a full batch ends them. */
    method VisitGroups(groups: seq<seq<int>>, pStart: nat, start: nat, now: int, bs: int, ghost m: Mux)
      returns (picks: seq<Pick>, late: seq<Pick>, ghost f: Forming)
      requires Filed() && m == Model() && bs > 0
      requires groups != [] ==> pStart < |groups| && (groups[pStart] != [] ==> start < |groups[pStart]|)
      requires EntriesIn(RoundEntries(groups, pStart, start, 0), m.pads) && PicksIn(m.pads, [])
      modifies pads.Values, this`stats, this`rrPriority, this`rrSource
      ensures f == Fill(m, Blank(m), RoundEntries(groups, pStart, start, 0), now, bs)
      ensures Model() == Formed(m, f) && picks == f.picks && late == f.late
    {
      BlankFields();
      hide *;
      picks, late, f := [], [], Blank(m);
      for gi := 0 to |groups|
        invariant f.pads == PadValues() && f.picks == picks && f.late == late && PicksIn(f.pads, picks)
        invariant f.rrPriority == rrPriority && f.rrSource == rrSource && |picks| < bs
        invariant stats == old(stats).(droppedLate := old(stats).droppedLate + |late|)
        invariant EntriesIn(RoundEntries(groups, pStart, start, gi), f.pads)
        invariant Fill(m, Blank(m), RoundEntries(groups, pStart, start, 0), now, bs) ==
                  Fill(m, f, RoundEntries(groups, pStart, start, gi), now, bs)
      {
        RoundTurn(groups, pStart, start, gi);
        var pos := Turn(pStart, gi, |groups|);
        var closed;
        picks, closed, f := VisitGroup(groups[pos], if gi == 0 then start else 0, pos, now, bs, picks,
                                       m, f, RoundEntries(groups, pStart, start, gi + 1));
        late := late + closed;
        if |picks| >= bs {
          FormedInto(f);
          return;
        }
      }
      RoundEnds(groups, pStart, start);
      FillEnds(m, f, now, bs);
      FormedInto(f);
    }

    method ChooseNew(now: int) returns (picks: seq<Pick>, late: seq<Pick>, go: bool)
      requires Model().WellFormed()
      modifies pads.Values, this`stats, this`rrPriority, this`rrSource
      ensures var f := FormNew(old(Model()), now);
              Model() == Formed(old(Model()), f) && picks == f.picks && late == f.late && go == f.go
    {
      hide *;
      ghost var m := Model();
      Fields();
      WellFormedFiled();
      WellFormedAllIn(m);
      NewCases(m, now);
      RoundStarts(m);
      var bs := NewBatchSize(Model());
      if |pads| == 0 || bs <= 0 {
        return [], [], false;
      }
      var groups := Groups(Model());
      var pStart := if cfg.roundRobin && groups != [] then Remainder(rrPriority, |groups|) else 0;
      var start := if cfg.roundRobin && groups != [] && groups[pStart] != [] then Remainder(rrSource, |groups[pStart]|) else 0;
      ghost var f;
      picks, late, f := VisitGroups(groups, pStart, start, now, bs, m);
      var ready, maxDur := |picks| >= bs, cfg.MinFpsDur();
      var due := lastBatch.Some? && maxDur.Some? && now >= lastBatch.value + maxDur.value;
      var throttled := cfg.maxFpsControl && lastBatch.Some? && now < lastBatch.value + cfg.MaxFpsDur();
      go := (ready || due) && !throttled;
    }

    // -------------------------------------------------------------- poll

    method FormBatch(now: int) returns (batch: Option<Batch>, lost: seq<Pick>, ghost e: Effect)
      requires Sound(Model())
      modifies this`rrPriority, this`rrSource, this`firstDuration, this`prevPts, this`batchIndex, this`lastBatch,
               this`stats, pads.Values
      ensures var m := old(Model()); AllIn(m.order, m.pads) && m.cfg.overallMaxFps > 0.0 && e == BatchStage(m, now)
      ensures Model() == e.mux && lost == e.lost && (batch.Some? <==> e.picks != [])
      ensures e.outs == if batch.Some? then [Frames(batch.value)] else []
    {
      hide *;
      ghost var m := Model();
      Fields();
      SoundParts(m);
      FormByPolicy(m, now);
      FormPrefixes(m, now);
      e := BatchStage(m, now);
      var picks, go;
      if cfg.policy == Legacy {
        picks, lost, go := ChooseLegacy(now);
      } else {
        picks, lost, go := ChooseNew(now);
      }
      batch := None;
      if picks != [] && go {
        var b := Emit(picks, now);
        batch := Some(b);
      }
    }

    method Flush() returns (events: seq<Event>)
      modifies this`pendingEvents
      ensures events == old(Model()).pending && Model() == old(Model()).(pending := [])
    {
      hide PadValues;
      events := pendingEvents;
      pendingEvents := [];
    }

    function AllEnded(): (r: bool)
      reads this, pads.Values
      ensures r == Model().AllEos()
    {
      assert PadValues().Keys == pads.Keys;
      assert forall i :: i in pads ==> PadValues()[i].eos == pads[i].eos;
      forall i <- pads.Keys :: pads[i].eos
    }

    /** The end of the whole stream, once all pads are at theirs. */
    method EndWhenAllEnded() returns (outs: seq<Output>)
      modifies this`eosSent
      ensures Effect(Model(), outs, [], []) == EndStage(old(Model()))
    {
      hide PadValues, Mux.AllEos;
      Fields();
      outs := [];
      if |pads| != 0 && !eosSent && AllEnded() {
        eosSent := true;
        outs := [Notice(Eos)];
      }
    }

    method PollOnce(now: int) returns (outs: seq<Output>, lost: seq<Pick>, ghost picks: seq<Pick>)
      requires Sound(Model())
      modifies this`pendingEvents, this`eosSent, this`rrPriority, this`rrSource, this`firstDuration, this`prevPts,
               this`batchIndex, this`lastBatch, this`stats, pads.Values
      ensures var m := old(Model());
              && AllIn(m.order, m.pads) && m.cfg.overallMaxFps > 0.0
              && Effect(Model(), outs, lost, picks) == MuxSpec.Poll(m, now)
    {
      hide *;
      ghost var m := Model();
      SoundParts(m);
      PollStages(m, now);
      var events := Flush();
      ghost var m0 := Model();
      EosParts(m0);
      SoundParts(m0);
      outs := Notices(events);
      var closed := ForwardEnds();
      ghost var o1 := Notices(closed);
      var body := Notices(closed);
      var batch, dropped, e := FormBatch(now);
      lost, picks := dropped, e.picks;
      ghost var m2 := Model();
      SoundParts(m2);
      EosParts(m2);
      if batch.Some? {
        closed := ForwardEnds();
        body := body + [Frames(batch.value)] + Notices(closed);
      } else {
        NothingAdded(body);
      }
      var end := EndWhenAllEnded();
      outs := outs + (body + end);
    }

    // -------------------------------------------------------------- the calls, as steps of a run

    lemma Ready(s: Step)
      requires Valid() && Enabled(world, s)
      ensures world.mux == Model() && Inv(world) && Sound(Model())
      ensures Model().WellFormed() && world.hist.Keys == Model().pads.Keys
      ensures Model() == world.mux
    {
      MuxLiveness.InvIsSound(world);
    }

    /** The run goes on by the step just made. */
    ghost method Observe(s: Step)
      requires Inv(world) && Enabled(world, s)
      requires var m := world.mux; m.WellFormed() && world.hist.Keys == m.pads.Keys && Model() == MuxAfter(m, s)
      modifies this`world
      ensures Valid() && Follows(old(world), s, world) && Model() == old(Model())
    {
      hide Inv, Next, PadValues, MuxAfter, Enabled, Mux.WellFormed;
      NextOk(world, s);
      NextMux(world, s);
      world := Next(world, s);
    }

    method AddPad(i: int, sourceId: Option<int>, scfg: Option<SourceConfig>) returns (reply: Reply)
      requires Valid()
      modifies this
      ensures Valid() && Follows(old(world), Add(i, sourceId, scfg), world)
      ensures (Model(), reply) == MuxSpec.AddPad(old(Model()), i, sourceId, scfg)
    {
      Ready(Add(i, sourceId, scfg));
      hide Inv, Model, MuxSpec.AddPad, Follows;
      reply := InsertPad(i, sourceId, scfg);
      Observe(Add(i, sourceId, scfg));
    }

    method RemovePad(i: int) returns (reply: Reply, lost: seq<Pick>)
      requires Valid()
      modifies this
      ensures Valid() && Follows(old(world), Remove(i), world)
      ensures (Effect(Model(), [], lost, []), reply) == MuxSpec.RemovePad(old(Model()), i)
    {
      Ready(Remove(i));
      hide Inv, Model, MuxSpec.RemovePad, Follows;
      reply, lost := DeletePad(i);
      Observe(Remove(i));
    }

    method PushFrame(i: int, payload: int, pts: int, width: int, height: int, ntp: Option<int>, wall: int,
                     duration: int, now: int) returns (reply: Reply, lost: seq<Pick>)
      requires Valid() && now >= world.clock && Free(Model(), i)
      modifies this, pads.Values
      ensures Valid()
      ensures var stamp := match ntp case Some(t) => t case None => if cfg.attachSysTs then wall else 0;
              var a := Arrival(payload, pts, width, height, stamp);
              && Follows(old(world), PushAt(i, a, duration, now), world)
              && (Effect(Model(), [], lost, []), reply) == Push(old(Model()), i, a, duration, now)
    {
      ghost var a := Arrival(payload, pts, width, height, StampNtp(cfg, ntp, wall));
      Ready(PushAt(i, a, duration, now));
      hide Inv, Model, Push, Follows;
      reply, lost := Offer(i, payload, pts, width, height, ntp, wall, duration, now);
      Observe(PushAt(i, a, duration, now));
    }

    method ResumePush(i: int, now: int) returns (reply: Reply)
      requires Valid() && now >= world.clock && CanResume(Model(), i)
      modifies this, pads.Values
      ensures Valid() && Follows(old(world), ResumeAt(i, now), world)
      ensures (Model(), reply) == Resume(old(Model()), i, now)
    {
      Ready(ResumeAt(i, now));
      hide Inv, Model, Resume, Follows, CanResume;
      reply := Admit(i, now);
      Observe(ResumeAt(i, now));
    }

    method PushEos(i: int) returns (reply: Reply)
      requires Valid() && Free(Model(), i)
      modifies this, pads.Values
      ensures Valid() && Follows(old(world), End(i), world)
      ensures (Model(), reply) == MuxSpec.PushEos(old(Model()), i)
    {
      Ready(End(i));
      hide Inv, Model, MuxSpec.PushEos, Follows;
      reply := EndInput(i);
      Observe(End(i));
    }

    method Start(now: int)
      requires Valid() && now >= world.clock
      modifies this
      ensures Valid() && Follows(old(world), StartAt(now), world) && Model() == MuxSpec.Start(old(Model()), now)
    {
      Ready(StartAt(now));
      hide Inv, Model, Follows;
      Begin(now);
      Observe(StartAt(now));
    }

    method Stop()
      requires Valid()
      modifies this
      ensures Valid() && Follows(old(world), StopNow, world) && Model() == MuxSpec.Stop(old(Model()))
    {
      Ready(StopNow);
      hide Inv, Model, Follows;
      Halt();
      Observe(StopNow);
    }

    method Poll(now: int) returns (outs: seq<Output>, lost: seq<Pick>, ghost picks: seq<Pick>)
      requires Valid() && now >= world.clock
      modifies this`world, this`pendingEvents, this`eosSent, this`rrPriority, this`rrSource, this`firstDuration,
               this`prevPts, this`batchIndex, this`lastBatch, this`stats, pads.Values
      ensures Valid() && Follows(old(world), PollAt(now), world)
      ensures Sound(old(Model())) && Effect(Model(), outs, lost, picks) == MuxSpec.Poll(old(Model()), now)
    {
      Ready(PollAt(now));
      hide Inv, Model, MuxSpec.Poll, Follows, Sound;
      outs, lost, picks := PollOnce(now);
      Observe(PollAt(now));
    }

    /** poll until nothing more comes out; `clock(k)` is the time that poll number `k` is made at. */
    method Drain(clock: nat -> int) returns (outs: seq<Output>, lost: seq<Pick>, ghost picks: seq<Pick>, polls: nat)
      requires Valid() && Forward(clock) && clock(0) >= world.clock
      modifies this, pads.Values
      ensures Valid() && Sound(old(Model()))
      ensures Effect(Model(), outs, lost, picks) == MuxDrain.Drain(old(Model()), clock, 0)
      ensures polls == LastPoll(old(Model()), clock, 0) + 1 && world.clock == clock(polls - 1)
    {
      ghost var m := Model();
      hide *;
      Ready(PollAt(clock(0)));
      outs, lost, picks, polls := [], [], [], 0;
      PrependNothing(MuxDrain.Drain(m, clock, 0));
      while true
        invariant Valid() && world.clock <= clock(polls) && Sound(Model()) && pads == old(pads)
        invariant Prepended(outs, lost, picks, MuxDrain.Drain(Model(), clock, polls)) == MuxDrain.Drain(m, clock, 0)
        invariant LastPoll(Model(), clock, polls) == LastPoll(m, clock, 0)
        decreases LeftOver(Model())
      {
        DrainOneMore(Model(), outs, lost, picks, clock, polls);
        ghost var w := world;
        var got, dropped, taken := Poll(clock(polls));
        PollClock(w, clock(polls), world);
        outs, lost, picks := outs + got, lost + dropped, picks + taken;
        ClockGoesOn(clock, polls);
        polls := polls + 1;
        if got == [] {
          break;
        }
      }
    }
  }
}
