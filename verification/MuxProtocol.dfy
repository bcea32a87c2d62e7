/** The event protocol of the output: what a consumer may rely on about the order
    of notices and batches, for every pad and for the pipeline. */
module MuxProtocol {
  import opened Shared
  import opened MuxTypes
  import opened MuxSpec
  import opened BatchSplit
  import opened LegacyBatch
  import opened MuxRuns
  import opened PadLedger
  import opened MuxInvariant
  import opened MuxSafety

  /** Where one pad index stands in the output read so far. */
  datatype Phase = Absent | Added | Streaming | Ended | Broken

  function Advance(ph: Phase, out: Output, i: int): Phase {
    match out
    case Notice(PadAdded(p, _)) => if p != i then ph else if ph == Absent then Added else Broken
    case Notice(StreamSegment(p, _, _)) => if p != i then ph else if ph == Added then Streaming else Broken
    case Notice(StreamEos(p, _)) => if p != i then ph else if ph == Added || ph == Streaming then Ended else Broken
    case Notice(PadDeleted(p, _)) => if p != i then ph else if ph == Absent || ph == Broken then Broken else Absent
    case Notice(Eos) => ph
    case Frames(b) => if FramesOn(b.frames, i) == [] then ph else if ph == Streaming then Streaming else Broken
  }

  function PhaseFrom(ph: Phase, outs: seq<Output>, i: int): Phase {
    if outs == [] then ph
    else
      var n := |outs| - 1;
      Advance(PhaseFrom(ph, outs[..n], i), outs[n], i)
  }

  /** Where the pipeline as a whole stands: after its end, only new pads reopen it. */
  datatype Pipeline = Open | Closed | Violated

  function AdvancePipe(pp: Pipeline, out: Output): Pipeline {
    match out
    case Notice(PadAdded(_, _)) => if pp == Violated then Violated else Open
    case Notice(PadDeleted(_, _)) => pp
    case Notice(Eos) => if pp == Open then Closed else Violated
    case _ => if pp == Open then Open else Violated
  }

  function PipeFrom(pp: Pipeline, outs: seq<Output>): Pipeline {
    if outs == [] then pp
    else
      var n := |outs| - 1;
      AdvancePipe(PipeFrom(pp, outs[..n]), outs[n])
  }

  /** The pipeline's end comes only when every pad present has ended. */
  ghost predicate EndsWhenAllEnded(trace: seq<Output>) {
    forall k, i :: 0 <= k < |trace| && trace[k] == Notice(Eos) ==>
      PhaseFrom(Absent, trace[..k], i) == Absent || PhaseFrom(Absent, trace[..k], i) == Ended
  }

  // ---------------------------------------------------------------- reading on

  lemma {:induction false} PhaseAppend(ph: Phase, a: seq<Output>, b: seq<Output>, i: int)
    ensures PhaseFrom(ph, a + b, i) == PhaseFrom(PhaseFrom(ph, a, i), b, i)
  {
    if b == [] {
      assert a + b == a;
    } else {
      var n := |b| - 1;
      assert (a + b)[..|a| + n] == a + b[..n];
      PhaseAppend(ph, a, b[..n], i);
    }
  }

  lemma {:induction false} PipeAppend(pp: Pipeline, a: seq<Output>, b: seq<Output>)
    ensures PipeFrom(pp, a + b) == PipeFrom(PipeFrom(pp, a), b)
  {
    if b == [] {
      assert a + b == a;
    } else {
      var n := |b| - 1;
      assert (a + b)[..|a| + n] == a + b[..n];
      PipeAppend(pp, a, b[..n]);
    }
  }

  lemma PhaseOne(ph: Phase, x: Output, i: int)
    ensures PhaseFrom(ph, [x], i) == Advance(ph, x, i)
  {
    assert [x][..0] == [];
  }

  lemma PipeOne(pp: Pipeline, x: Output)
    ensures PipeFrom(pp, [x]) == AdvancePipe(pp, x)
  {
    assert [x][..0] == [];
  }

  // ---------------------------------------------------------------- the state behind the phase

  function Expected(m: Mux, i: int): Phase {
    if i !in m.pads then Absent
    else if m.pads[i].eos then Ended
    else if m.pads[i].segmentSent then Streaming
    else Added
  }

  function ExpectedPipe(m: Mux): Pipeline { if m.eosSent then Closed else Open }

  function Told(w: World): seq<Output> { w.trace + Notices(w.mux.pending) }

  ghost predicate InPhase(outs: seq<Output>, m: Mux) {
    && (forall i :: PhaseFrom(Absent, outs, i) == Expected(m, i))
    && PipeFrom(Open, outs) == ExpectedPipe(m)
  }

  ghost predicate Protocol(w: World) {
    && InPhase(Told(w), w.mux)
    && EndsWhenAllEnded(w.trace)
    && (forall e :: e in w.mux.pending ==> e != Eos)
  }

  // ---------------------------------------------------------------- stages of poll

  lemma PhasePush(ph: Phase, events: seq<Event>, e: Event, i: int)
    ensures PhaseFrom(ph, Notices(events + [e]), i) == Advance(PhaseFrom(ph, Notices(events), i), Notice(e), i)
  {
    assert Notices(events + [e])[..|events|] == Notices(events);
  }

  lemma PipePush(pp: Pipeline, events: seq<Event>, e: Event)
    ensures PipeFrom(pp, Notices(events + [e])) == AdvancePipe(PipeFrom(pp, Notices(events)), Notice(e))
  {
    assert Notices(events + [e])[..|events|] == Notices(events);
  }

  lemma {:induction false} EosNoticesPhase(pads: map<int, Pad>, ids: seq<int>, i: int, ph: Phase)
    requires AllIn(ids, pads) && Distinct(ids) && (forall j :: j in pads ==> pads[j].index == j)
    requires ph == Added || ph == Streaming || i !in ids || !Closing(pads[i])
    ensures PhaseFrom(ph, Notices(EosNotices(pads, ids)), i) == if i in ids && i in pads && Closing(pads[i]) then Ended else ph
  {
    if ids == [] {
      assert Notices([]) == [];
    } else {
      var n := |ids| - 1;
      var x, front := ids[n], EosNotices(pads, ids[..n]);
      EosNoticesPhase(pads, ids[..n], i, ph);
      hide Closing;
      assert i in ids <==> i in ids[..n] || i == x by {
        assert ids == ids[..n] + [x];
      }
      assert x !in ids[..n];
      if Closing(pads[x]) {
        PhasePush(ph, front, StreamEos(pads[x].index, pads[x].sourceId), i);
      } else {
        assert EosNotices(pads, ids) == front;
      }
    }
  }

  lemma {:induction false} EosNoticesPipe(pads: map<int, Pad>, ids: seq<int>, pp: Pipeline)
    requires AllIn(ids, pads)
    requires pp == Open || (forall j :: j in pads ==> !Closing(pads[j]))
    ensures PipeFrom(pp, Notices(EosNotices(pads, ids))) == pp
    ensures forall e :: e in EosNotices(pads, ids) ==> e.StreamEos?
  {
    if ids == [] {
      assert Notices([]) == [];
    } else {
      var n := |ids| - 1;
      var x, front := ids[n], EosNotices(pads, ids[..n]);
      EosNoticesPipe(pads, ids[..n], pp);
      hide Closing;
      if Closing(pads[x]) {
        PipePush(pp, front, StreamEos(pads[x].index, pads[x].sourceId));
      } else {
        assert EosNotices(pads, ids) == front;
      }
    }
  }

  /** A stage that leads from `m` to `m'` keeps the output in phase. */
  ghost predicate StageInPhase(m: Mux, outs: seq<Output>, m': Mux) {
    && (forall i :: PhaseFrom(Expected(m, i), outs, i) == Expected(m', i))
    && PipeFrom(ExpectedPipe(m), outs) == ExpectedPipe(m')
  }

  lemma StageAppend(told: seq<Output>, m: Mux, outs: seq<Output>, m': Mux)
    requires InPhase(told, m) && StageInPhase(m, outs, m')
    ensures InPhase(told + outs, m')
  {
    forall i ensures PhaseFrom(Absent, told + outs, i) == Expected(m', i) {
      PhaseAppend(Absent, told, outs, i);
    }
    PipeAppend(Open, told, outs);
  }

  lemma EosStagePhase(m: Mux, clock: int)
    requires MuxOk(m, clock)
    ensures StageInPhase(m, EosStage(m).outs, EosStage(m).mux)
  {
    var outs, m' := EosStage(m).outs, EosStage(m).mux;
    forall i ensures PhaseFrom(Expected(m, i), outs, i) == Expected(m', i) {
      EosNoticesPhase(m.pads, m.order, i, Expected(m, i));
    }
    EosNoticesPipe(m.pads, m.order, ExpectedPipe(m));
  }

  lemma FormedPhase(m: Mux, hist: map<int, History>, now: int, i: int)
    requires MuxOk(m, now) && PadsOk(m.cfg, m.pads, hist, now) && AllSplit(m, Form(m, now)) && i in m.pads
    ensures Expected(Formed(m, Form(m, now)), i) == Expected(m, i)
    ensures On(Form(m, now).picks, i) != [] ==> Expected(m, i) == Streaming
  {
    var f := Form(m, now);
    assert SplitAt(m, f, i);
    StreamingIfTaken(m.cfg, m.pads[i], f.pads[i], hist[i], On(f.late, i), On(f.picks, i), now);
    hide Form, On, PadOk, Split;
  }

  lemma StageSame(m: Mux, m': Mux)
    requires (forall i :: Expected(m, i) == Expected(m', i)) && m.eosSent == m'.eosSent
    ensures StageInPhase(m, [], m')
    ensures forall outs, m'' :: StageInPhase(m', outs, m'') ==> StageInPhase(m, outs, m'')
  {
  }

  /** Frames leave only pads that stream, and none leave once all pads have ended. */
  lemma BatchStagePhase(m: Mux, hist: map<int, History>, now: int)
    requires MuxOk(m, now) && PadsOk(m.cfg, m.pads, hist, now)
    ensures StageInPhase(m, BatchStage(m, now).outs, BatchStage(m, now).mux)
  {
    PadsOrdered(m, hist, now);
    FormSplits(m, now);
    FormedOk(m, now);
    hide Form, AllSplit, On, PadsOk, EmitMux, EmitBatch, StageInPhase;
    var f := Form(m, now);
    var m' := Formed(m, f);
    forall i | i in m.pads
      ensures Expected(m', i) == Expected(m, i) && (On(f.picks, i) != [] ==> Expected(m, i) == Streaming)
    {
      FormedPhase(m, hist, now, i);
    }
    StageSame(m, m');
    if f.picks != [] && f.go {
      EmitPhase(m', f.picks, now);
    }
  }

  lemma StreamingIfTaken(cfg: MuxConfig, p: Pad, p': Pad, h: History, late: seq<Queued>, taken: seq<Queued>, clock: int)
    requires PadOk(cfg, p, h, clock) && Split(cfg.syncInputs, p, p', late, taken)
    ensures p'.eos == p.eos && p'.segmentSent == p.segmentSent
    ensures taken != [] ==> !p.eos && p.segmentSent
  {
    ThinnedSeqs(p.queue, p'.queue, late);
  }

  lemma MetasShow(m: Mux, picks: seq<Pick>, i: int)
    requires m.WellFormed() && PicksIn(m.pads, picks)
    ensures FramesOn(Metas(m, picks), i) == [] <==> i !in m.pads || On(picks, i) == []
  {
    if i in m.pads {
      MetasCarry(m, picks, i);
      assert |FramesOn(Metas(m, picks), i)| == |On(picks, i)|;
    } else {
      MetasElsewhere(m, picks, i);
    }
  }

  lemma EmitNotEnded(m: Mux, picks: seq<Pick>)
    requires PicksIn(m.pads, picks) && picks != [] && (m.eosSent ==> m.AllEos())
    requires forall i :: i in m.pads && On(picks, i) != [] ==> Expected(m, i) == Streaming
    ensures !m.eosSent
  {
    var last := picks[|picks| - 1];
    OnMember(picks, last.pad, last.q);
  }

  lemma EmitPhase(m: Mux, picks: seq<Pick>, now: int)
    requires m.WellFormed() && PicksIn(m.pads, picks) && picks != []
    requires forall i :: i in m.pads && On(picks, i) != [] ==> Expected(m, i) == Streaming
    requires m.eosSent ==> m.AllEos()
    ensures StageInPhase(m, [Frames(EmitBatch(m, picks, now))], EmitMux(m, picks, now))
  {
    EmitNotEnded(m, picks);
    hide On, FramesOn, OutputPts, FrameDuration;
    var out, m' := Frames(EmitBatch(m, picks, now)), EmitMux(m, picks, now);
    PipeOne(ExpectedPipe(m), out);
    forall i ensures PhaseFrom(Expected(m, i), [out], i) == Expected(m', i) {
      PhaseOne(Expected(m, i), out, i);
      MetasShow(m, picks, i);
      assert Expected(m', i) == Expected(m, i);
    }
  }

  lemma {:induction false} MetasElsewhere(m: Mux, picks: seq<Pick>, i: int)
    requires PicksIn(m.pads, picks) && i !in m.pads && (forall j :: j in m.pads ==> m.pads[j].index == j)
    ensures FramesOn(Metas(m, picks), i) == []
  {
    if picks != [] {
      var n := |picks| - 1;
      MetasElsewhere(m, picks[..n], i);
      assert Metas(m, picks)[..n] == Metas(m, picks[..n]) by {
        forall k | 0 <= k < n ensures Meta(m, picks, k) == Meta(m, picks[..n], k) {
          assert picks[..n][..k] == picks[..k];
        }
      }
    }
  }

  lemma EndStagePhase(m: Mux)
    ensures StageInPhase(m, EndStage(m).outs, EndStage(m).mux)
  {
    PipeOne(Open, Notice(Eos));
    forall i ensures PhaseFrom(Expected(m, i), EndStage(m).outs, i) == Expected(EndStage(m).mux, i) {
      PhaseOne(Expected(m, i), Notice(Eos), i);
    }
  }

  // ---------------------------------------------------------------- the end of the pipeline

  lemma EndsAppend(a: seq<Output>, b: seq<Output>)
    requires EndsWhenAllEnded(a) && (forall k :: 0 <= k < |b| ==> b[k] != Notice(Eos))
    ensures EndsWhenAllEnded(a + b)
  {
    forall k, i | 0 <= k < |a + b| && (a + b)[k] == Notice(Eos)
      ensures PhaseFrom(Absent, (a + b)[..k], i) == Absent || PhaseFrom(Absent, (a + b)[..k], i) == Ended
    {
      assert (a + b)[..k] == a[..k];
    }
  }

  lemma EndsAppendEos(a: seq<Output>, m: Mux)
    requires EndsWhenAllEnded(a) && InPhase(a, m) && m.AllEos()
    ensures EndsWhenAllEnded(a + [Notice(Eos)])
  {
    var b := a + [Notice(Eos)];
    forall k, i | 0 <= k < |b| && b[k] == Notice(Eos)
      ensures PhaseFrom(Absent, b[..k], i) == Absent || PhaseFrom(Absent, b[..k], i) == Ended
    {
      if k < |a| {
        assert b[..k] == a[..k];
      } else {
        assert b[..k] == a;
      }
    }
  }

  // ---------------------------------------------------------------- one poll

  lemma EosStageTells(told: seq<Output>, m: Mux, clock: int)
    requires MuxOk(m, clock) && InPhase(told, m) && EndsWhenAllEnded(told)
    ensures InPhase(told + EosStage(m).outs, EosStage(m).mux) && EndsWhenAllEnded(told + EosStage(m).outs)
  {
    EosStagePhase(m, clock);
    StageAppend(told, m, EosStage(m).outs, EosStage(m).mux);
    EosNoticesPipe(m.pads, m.order, Open);
    assert forall k :: 0 <= k < |EosNotices(m.pads, m.order)| ==> EosNotices(m.pads, m.order)[k] in EosNotices(m.pads, m.order);
    EndsAppend(told, EosStage(m).outs);
  }

  lemma BatchNoEos(m: Mux, now: int)
    requires m.cfg.overallMaxFps > 0.0 && AllIn(m.order, m.pads)
    ensures forall k :: 0 <= k < |BatchStage(m, now).outs| ==> BatchStage(m, now).outs[k] != Notice(Eos)
  {
    hide Form, EmitBatch, EmitMux;
  }

  lemma BatchStageTells(told: seq<Output>, m: Mux, hist: map<int, History>, now: int)
    requires MuxOk(m, now) && PadsOk(m.cfg, m.pads, hist, now) && InPhase(told, m) && EndsWhenAllEnded(told)
    ensures InPhase(told + BatchStage(m, now).outs, BatchStage(m, now).mux)
    ensures EndsWhenAllEnded(told + BatchStage(m, now).outs)
  {
    BatchStagePhase(m, hist, now);
    BatchNoEos(m, now);
    hide BatchStage;
    hide MuxOk, PadsOk, Form, EmitMux, EmitBatch, InPhase, StageInPhase;
    StageAppend(told, m, BatchStage(m, now).outs, BatchStage(m, now).mux);
    EndsAppend(told, BatchStage(m, now).outs);
  }

  lemma EndStageTells(told: seq<Output>, m: Mux)
    requires InPhase(told, m) && EndsWhenAllEnded(told)
    ensures InPhase(told + EndStage(m).outs, EndStage(m).mux) && EndsWhenAllEnded(told + EndStage(m).outs)
  {
    EndStagePhase(m);
    StageAppend(told, m, EndStage(m).outs, EndStage(m).mux);
    if EndStage(m).outs == [] {
      assert told + [] == told;
    } else {
      EndsAppendEos(told, m);
    }
  }

  lemma PollTells(told: seq<Output>, m: Mux, hist: map<int, History>, now: int)
    requires MuxOk(m, now) && PadsOk(m.cfg, m.pads, hist, now)
    requires InPhase(told, m) && EndsWhenAllEnded(told)
    ensures InPhase(told + PollBody(m, now).outs, PollBody(m, now).mux)
    ensures EndsWhenAllEnded(told + PollBody(m, now).outs)
  {
    EosStageOk(m, hist, now);
    EosStageTells(told, m, now);
    var e1 := EosStage(m);
    hide InPhase, EndsWhenAllEnded, EosStage, BatchStage, EndStage;
    var e2 := BatchStage(e1.mux, now);
    BatchStageOk(e1.mux, hist, now, e2);
    BatchStageTells(told + e1.outs, e1.mux, hist, now);
    var e3 := if e2.picks != [] then EosStage(e2.mux) else Effect(e2.mux, [], [], []);
    var told2 := told + e1.outs + e2.outs;
    hide PadsOk;
    if e2.picks != [] {
      EosStageTells(told2, e2.mux, now);
    } else {
      assert told2 + [] == told2;
    }
    EndStageTells(told2 + e3.outs, e3.mux);
    Regroup(told, e1.outs, e2.outs, e3.outs, EndStage(e3.mux).outs);
  }

  lemma BodyKeepsPending(m: Mux, now: int)
    requires m.cfg.overallMaxFps > 0.0 && AllIn(m.order, m.pads)
    ensures PollBody(m, now).mux.pending == m.pending
  {
    hide EosNotices, Form, OutputPts, FrameDuration, On;
  }

  lemma PhaseIgnoresPending(outs: seq<Output>, m: Mux)
    requires InPhase(outs, m)
    ensures InPhase(outs, m.(pending := []))
  {
    assert forall i :: Expected(m.(pending := []), i) == Expected(m, i);
  }

  lemma FlushEnds(trace: seq<Output>, pending: seq<Event>)
    requires EndsWhenAllEnded(trace) && (forall e :: e in pending ==> e != Eos)
    ensures EndsWhenAllEnded(trace + Notices(pending))
  {
    assert forall k :: 0 <= k < |pending| ==> pending[k] in pending;
    EndsAppend(trace, Notices(pending));
  }

  lemma PollTrace(w: World, now: int)
    requires w.mux.WellFormed()
    ensures var m := w.mux.(pending := []);
            && NextPoll(w, now).trace == Told(w) + PollBody(m, now).outs
            && NextPoll(w, now).mux == PollBody(m, now).mux
            && NextPoll(w, now).mux.pending == []
  {
    BodyKeepsPending(w.mux.(pending := []), now);
    hide PollBody;
  }

  lemma PollProtocol(w: World, now: int)
    requires Inv(w) && Protocol(w) && w.clock <= now
    ensures Protocol(NextPoll(w, now))
  {
    var m := w.mux.(pending := []);
    TimeOk(w, now);
    assert MuxOk(m, now);
    PollTrace(w, now);
    hide PadsOk, Settled, InPhase, EndsWhenAllEnded, PollBody, NextPoll;
    PhaseIgnoresPending(Told(w), w.mux);
    FlushEnds(w.trace, w.mux.pending);
    PollTells(Told(w), m, w.hist, now);
    hide MuxOk;
    Flushed(NextPoll(w, now));
  }

  lemma Flushed(w: World)
    requires w.mux.pending == [] && InPhase(w.trace, w.mux) && EndsWhenAllEnded(w.trace)
    ensures Protocol(w)
  {
    hide InPhase, EndsWhenAllEnded;
    assert Told(w) == w.trace;
  }

  // ---------------------------------------------------------------- the other steps

  /** A call that files one event and changes the phase of at most one pad to match. */
  lemma FilesEvent(w: World, w': World, e: Event)
    requires Protocol(w) && w'.trace == w.trace && w'.mux.pending == w.mux.pending + [e] && e != Eos
    requires StageInPhase(w.mux, [Notice(e)], w'.mux)
    ensures Protocol(w')
  {
    hide StageInPhase, InPhase, EndsWhenAllEnded;
    assert Told(w') == Told(w) + [Notice(e)];
    StageAppend(Told(w), w.mux, [Notice(e)], w'.mux);
  }

  lemma FilesNothing(w: World, w': World)
    requires Protocol(w) && w'.trace == w.trace && w'.mux.pending == w.mux.pending
    requires w'.mux.eosSent == w.mux.eosSent && (forall i :: Expected(w'.mux, i) == Expected(w.mux, i))
    ensures Protocol(w')
  {
    assert Told(w') == Told(w);
    hide EndsWhenAllEnded;
  }

  lemma OneEvent(m: Mux, e: Event, m': Mux)
    requires forall i :: Advance(Expected(m, i), Notice(e), i) == Expected(m', i)
    requires AdvancePipe(ExpectedPipe(m), Notice(e)) == ExpectedPipe(m')
    ensures StageInPhase(m, [Notice(e)], m')
  {
    forall i ensures PhaseFrom(Expected(m, i), [Notice(e)], i) == Expected(m', i) {
      PhaseOne(Expected(m, i), Notice(e), i);
    }
    PipeOne(ExpectedPipe(m), Notice(e));
  }

  lemma AddProtocol(w: World, i: int, source: Option<int>, scfg: Option<SourceConfig>)
    requires Inv(w) && Protocol(w)
    ensures Protocol(Next(w, Add(i, source, scfg)))
  {
    if i !in w.mux.pads {
      var w' := Next(w, Add(i, source, scfg));
      var e := PadAdded(i, NewPad(w.mux.cfg, i, source, scfg).sourceId);
      OneEvent(w.mux, e, w'.mux);
      hide Inv, InPhase, StageInPhase, EndsWhenAllEnded;
      FilesEvent(w, w', e);
    }
  }

  lemma RemovePhase(m: Mux, i: int)
    requires m.WellFormed() && i in m.pads
    ensures StageInPhase(m, [Notice(PadDeleted(i, m.pads[i].sourceId))], RemovePad(m, i).0.mux)
  {
    hide Without, Tagged;
    OneEvent(m, PadDeleted(i, m.pads[i].sourceId), RemovePad(m, i).0.mux);
  }

  lemma RemoveProtocol(w: World, i: int)
    requires Inv(w) && Protocol(w)
    ensures Protocol(NextRemove(w, i))
  {
    hide PadOk, Absorb, Settled, Without, Tagged, InPhase, StageInPhase, EndsWhenAllEnded;
    if i in w.mux.pads {
      RemovePhase(w.mux, i);
      FilesEvent(w, NextRemove(w, i), PadDeleted(i, w.mux.pads[i].sourceId));
    }
  }

  lemma PushProtocol(w: World, i: int, a: Arrival, duration: int, now: int)
    requires Inv(w) && Protocol(w)
    ensures Protocol(NextPush(w, i, a, duration, now))
  {
    hide PadOk, Settled;
    var w' := NextPush(w, i, a, duration, now);
    if i !in w.mux.pads || Refuses(w.mux.pads[i]) {
      FilesNothing(w, w');
    } else {
      var p := w.mux.pads[i];
      PushPadKeeps(w.mux.cfg, p, a, duration, now);
      hide PushPad, PushHistory;
      if p.segmentSent {
        FilesNothing(w, w');
      } else {
        var e := StreamSegment(i, p.sourceId, a.pts);
        OneEvent(w.mux, e, w'.mux);
        hide Inv, InPhase, StageInPhase, EndsWhenAllEnded, Push;
        FilesEvent(w, w', e);
      }
    }
  }

  lemma QuietProtocol(w: World, s: Step, w': World)
    requires Inv(w) && Protocol(w) && Follows(w, s, w') && (s.StartAt? || s.StopNow? || s.ResumeAt? || s.Abandon? || s.End?)
    ensures Protocol(w')
  {
    hide Protocol, PadOk, Settled;
    FilesNothing(w, w');
  }

  lemma FollowsProtocol(w: World, s: Step, w': World)
    requires Inv(w) && Protocol(w) && Follows(w, s, w')
    ensures Protocol(w')
  {
    hide Inv, Protocol, NextPoll, NextPush, NextRemove, NextResume;
    match s {
      case PollAt(now) => PollProtocol(w, now);
      case PushAt(i, a, duration, now) => PushProtocol(w, i, a, duration, now);
      case Add(i, source, scfg) => AddProtocol(w, i, source, scfg);
      case Remove(i) => RemoveProtocol(w, i);
      case _ => QuietProtocol(w, s, w');
    }
  }

  lemma {:induction false} RunProtocol(ws: seq<World>, steps: seq<Step>, k: nat)
    requires Run(ws, steps) && k < |ws| && Inv(ws[0]) && Protocol(ws[0])
    ensures Protocol(ws[k])
  {
    hide Inv, Follows, Protocol;
    if k > 0 {
      RunProtocol(ws, steps, k - 1);
      RunKeepsInv(ws, steps, k - 1);
      FollowsProtocol(ws[k - 1], steps[k - 1], ws[k]);
    }
  }

  lemma {:induction false} PhasePrefixes(trace: seq<Output>, k: nat, i: int)
    requires k <= |trace| && PhaseFrom(Absent, trace, i) != Broken
    ensures PhaseFrom(Absent, trace[..k], i) != Broken
    decreases |trace|
  {
    if k < |trace| {
      var n := |trace| - 1;
      assert trace[..n][..k] == trace[..k];
      PhasePrefixes(trace[..n], k, i);
    } else {
      assert trace[..k] == trace;
    }
  }

  lemma {:induction false} PipePrefixes(trace: seq<Output>, k: nat)
    requires k <= |trace| && PipeFrom(Open, trace) != Violated
    ensures PipeFrom(Open, trace[..k]) != Violated
    decreases |trace|
  {
    if k < |trace| {
      var n := |trace| - 1;
      assert trace[..n][..k] == trace[..k];
      PipePrefixes(trace[..n], k);
    } else {
      assert trace[..k] == trace;
    }
  }

  /** In every run the output obeys the protocol at every position: each life of a
      pad is pad-added, then stream-segment before its first frame, then frames,
      then at most one stream-eos with no frame after it, then pad-deleted; the
      pipeline's eos comes only when every pad present has ended, and nothing but
      a new pad may follow it. */
  lemma OutputObeysProtocol(cfg: MuxConfig, ws: seq<World>, steps: seq<Step>, k: nat, t: nat, i: int)
    requires RunFrom(cfg, ws, steps) && k < |ws| && t <= |ws[k].trace|
    ensures PhaseFrom(Absent, ws[k].trace[..t], i) != Broken
    ensures PipeFrom(Open, ws[k].trace[..t]) != Violated
    ensures EndsWhenAllEnded(ws[k].trace)
  {
    hide Follows, Inv, EndsWhenAllEnded;
    var clock :| ws[0] == NewWorld(cfg, clock);
    NewWorldOk(cfg, clock);
    assert Told(ws[0]) == [];
    NoTraceEnds();
    RunProtocol(ws, steps, k);
    assert Told(ws[k])[..t] == ws[k].trace[..t];
    PhasePrefixes(Told(ws[k]), t, i);
    PipePrefixes(Told(ws[k]), t);
  }

  lemma NoTraceEnds()
    ensures EndsWhenAllEnded([])
  {
  }
}
