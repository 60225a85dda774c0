/** What the echo backend hears: in every frame handed to it, the reference and
    the microphone belong to the same absolute positions. */
module AecAdapterPairs {
  import opened AudioBlocks
  import opened Outcomes
  import opened AecAdapter
  import opened AecAdapterRuns

  /** A sample position of one epoch. */
  datatype Spot = Spot(epoch: nat, position: nat)

  /** Microphone and reference audio accepted so far. */
  type Mic = map<nat, Stream>

  type References = map<Spot, Sample>

  /** Sample i of a frame that begins at this spot: both sides of that position,
      or silence on both sides past the end of the microphone. */
  ghost predicate Lined(call: Call, s: Stream, refs: References, at: Spot, i: nat)
    requires call.Process? && i < |call.render| && i < |call.capture| && s.origin <= at.position
  {
    var position := at.position + i;
    if position < s.End() then
      && call.capture[i] == s.mic[position - s.origin]
      && Spot(at.epoch, position) in refs && call.render[i] == refs[Spot(at.epoch, position)]
    else call.capture[i] == 0.0 && call.render[i] == 0.0
  }

  ghost predicate InPlace(env: Env, call: Call, mic: Mic, refs: References, at: Spot)
    requires call.Process?
  {
    && at.epoch in mic && mic[at.epoch].origin <= at.position
    && |call.render| == |call.capture| == env.config.frame
    && forall i :: 0 <= i < env.config.frame ==> Lined(call, mic[at.epoch], refs, at, i)
  }

  /** Every frame of the history is in place, each where the one before it ended
      unless the backend was reset in between. */
  ghost predicate Placed(env: Env, history: seq<Call>, mic: Mic, refs: References, spots: seq<Spot>)
  {
    && |spots| == |history|
    && (forall h :: 0 <= h < |history| && history[h].Process? ==> InPlace(env, history[h], mic, refs, spots[h]))
    && (forall h :: 0 < h < |history| && history[h].Process? && history[h - 1].Process? ==>
          spots[h] == Spot(spots[h - 1].epoch, spots[h - 1].position + env.config.frame))
  }

  ghost predicate InFrame(history: seq<Call>)
  {
    history != [] && history[|history| - 1].Process?
  }

  /** Where the next frame begins. */
  ghost function Due(env: Env, a: Adapter, spots: seq<Spot>): nat
    requires |spots| == |a.history|
  {
    if InFrame(a.history) then spots[|spots| - 1].position + env.config.frame else a.submitted
  }

  ghost predicate Ready(env: Env, a: Adapter, spots: seq<Spot>)
    requires |spots| == |a.history|
  {
    && (!a.failed && InFrame(a.history) ==> a.hasHistory && spots[|spots| - 1].epoch == a.epoch)
    && (!a.failed ==> a.submitted == Min(a.end, Due(env, a, spots)))
  }

  ghost predicate MicQueue(a: Adapter, mic: Mic)
  {
    && a.epoch in mic
    && var s := mic[a.epoch];
    && s.End() == a.end && s.origin <= a.emitted && a.emitted + |a.raw| == a.end
    && a.raw == s.mic[a.emitted - s.origin..]
  }

  /** The samples are the reference accepted from this spot on. */
  ghost predicate Accepted(refs: References, at: Spot, samples: seq<Sample>)
  {
    forall i :: 0 <= i < |samples| ==> Was(refs, Spot(at.epoch, at.position + i), samples[i])
  }

  ghost predicate Was(refs: References, at: Spot, x: Sample) { at in refs && refs[at] == x }

  ghost predicate RefQueue(a: Adapter, refs: References) { Accepted(refs, Spot(a.epoch, a.refStart), a.reference) }

  ghost predicate Synced(env: Env, a: Adapter, mic: Mic, refs: References, spots: seq<Spot>)
  {
    && MicQueue(a, mic) && RefQueue(a, refs) && |spots| == |a.history|
    && Placed(env, a.history, mic, refs, spots) && Ready(env, a, spots)
  }

  /** Nothing of the current epoch was padded: its frames end before `limit`. */
  ghost predicate Full(env: Env, history: seq<Call>, spots: seq<Spot>, epoch: nat, limit: nat)
    requires |spots| == |history|
  {
    forall h :: 0 <= h < |history| && history[h].Process? && spots[h].epoch == epoch ==>
      spots[h].position + env.config.frame <= limit
  }

  // ---------------------------------------------------------------- one backend call

  lemma {:induction false} PlacedAppend(env: Env, history: seq<Call>, mic: Mic, refs: References, spots: seq<Spot>, call: Call, at: Spot)
    requires Placed(env, history, mic, refs, spots)
    requires call.Process? ==> InPlace(env, call, mic, refs, at)
    requires call.Process? && InFrame(history) ==>
               at == Spot(spots[|spots| - 1].epoch, spots[|spots| - 1].position + env.config.frame)
    ensures Placed(env, history + [call], mic, refs, spots + [at])
  {
    hide InPlace;
    var longer, at' := history + [call], spots + [at];
    assert forall h :: 0 <= h < |history| ==> longer[h] == history[h] && at'[h] == spots[h];
  }

  lemma {:induction false} FullAppend(env: Env, history: seq<Call>, spots: seq<Spot>, epoch: nat, limit: nat, call: Call, at: Spot, later: nat)
    requires |spots| == |history| && Full(env, history, spots, epoch, limit) && limit <= later
    requires call.Process? ==> at.epoch == epoch && at.position + env.config.frame <= later
    ensures Full(env, history + [call], spots + [at], epoch, later)
  {
  }

  /** What a call leaves of the microphone queue and of the history. */
  lemma {:induction false} AdvanceQueue(env: Env, a: Adapter, render: seq<Sample>, capture: seq<Sample>, submitted: nat)
    requires Clocks(a) && !a.failed && a.submitted <= submitted <= a.end
    ensures var r := Advance(env, a, render, capture, submitted);
            && r.history == a.history + [Process(render, capture)]
            && (!r.failed ==> r.hasHistory)
            && a.emitted <= r.emitted <= a.end && r.raw == a.raw[r.emitted - a.emitted..]
  {
    CallQueue(env, a, render, capture);
    var (called, answer) := CallBackend(env, a, render, capture);
    hide CallBackend, EmitProcessed, Bypass;
    if answer.Some? { EmitQueue(env, called.(submitted := submitted), answer.value); }
  }

  lemma {:induction false} CallQueue(env: Env, a: Adapter, render: seq<Sample>, capture: seq<Sample>)
    requires Clocks(a) && !a.failed
    ensures var r := CallBackend(env, a, render, capture);
            && r.0.history == a.history + [Process(render, capture)]
            && (r.1.None? ==> r.0.emitted == a.end && r.0.raw == [])
  {
    hide PushOutput;
  }

  lemma {:induction false} EmitQueue(env: Env, a: Adapter, processed: seq<Sample>)
    requires |processed| == env.config.frame && a.emitted + |a.raw| == a.end
    ensures var r := EmitProcessed(env, a, processed);
            r.history == a.history && a.emitted <= r.emitted <= a.end && r.raw == a.raw[r.emitted - a.emitted..]
  {
    hide PushOutput;
  }

  lemma {:induction false} AdvanceSynced(env: Env, a: Adapter, mic: Mic, refs: References, spots: seq<Spot>,
                                         render: seq<Sample>, capture: seq<Sample>, submitted: nat)
    requires Clocks(a) && !a.failed && Synced(env, a, mic, refs, spots) && a.submitted <= submitted <= a.end
    requires InPlace(env, Process(render, capture), mic, refs, Spot(a.epoch, Due(env, a, spots)))
    requires submitted == Min(a.end, Due(env, a, spots) + env.config.frame)
    ensures Synced(env, Advance(env, a, render, capture, submitted), mic, refs, spots + [Spot(a.epoch, Due(env, a, spots))])
  {
    var at := Spot(a.epoch, Due(env, a, spots));
    AdvanceQueue(env, a, render, capture, submitted);
    PlacedAppend(env, a.history, mic, refs, spots, Process(render, capture), at);
    hide Placed, InPlace, Advance, CallBackend;
    var r := Advance(env, a, render, capture, submitted);
    MicQueueMoves(a, r, mic);
    hide MicQueue;
    hide Accepted;
  }

  lemma {:induction false} MicQueueMoves(a: Adapter, r: Adapter, mic: Mic)
    requires MicQueue(a, mic) && r.epoch == a.epoch && r.end == a.end
    requires a.emitted <= r.emitted <= a.end && r.raw == a.raw[r.emitted - a.emitted..]
    ensures MicQueue(r, mic)
  {
    QueueSplits(mic[a.epoch], a.emitted, a.raw, r.emitted - a.emitted);
  }

  // ---------------------------------------------------------------- the pump

  lemma {:induction false} MicQueueSame(a: Adapter, r: Adapter, mic: Mic)
    requires MicQueue(a, mic) && r.epoch == a.epoch && r.end == a.end && r.emitted == a.emitted && r.raw == a.raw
    ensures MicQueue(r, mic)
  {
  }

  lemma {:induction false} AcceptedTail(refs: References, at: Spot, samples: seq<Sample>, n: nat)
    requires Accepted(refs, at, samples) && n <= |samples|
    ensures Accepted(refs, at.(position := at.position + n), samples[n..])
  {
    forall i | 0 <= i < |samples| - n ensures Was(refs, Spot(at.epoch, at.position + n + i), samples[n..][i]) {
      assert samples[n..][i] == samples[n + i];
    }
  }

  lemma {:induction false} DropSynced(env: Env, a: Adapter, mic: Mic, refs: References, spots: seq<Spot>, upTo: nat)
    requires Synced(env, a, mic, refs, spots) && a.refStart + |a.reference| == a.refEnd
    ensures Synced(env, DropReference(a, upTo), mic, refs, spots)
  {
    hide Placed, MicQueue;
    var r := DropReference(a, upTo);
    MicQueueSame(a, r, mic);
    var n := |a.reference| - |r.reference|;
    AcceptedTail(refs, Spot(a.epoch, a.refStart), a.reference, n);
    assert r.reference == a.reference[n..] && r.refStart == a.refStart + n;
    hide Accepted, DropReference;
  }

  /** The frame the pump cuts out is in place. */
  lemma {:induction false} FrameInPlace(env: Env, a: Adapter, mic: Mic, refs: References, n: nat)
    requires Clocks(a) && MicQueue(a, mic) && RefQueue(a, refs)
    requires 0 < n <= env.config.frame && a.submitted + n <= a.end
    requires n == env.config.frame || a.submitted + n == a.end
    requires !MissingReferenceFor(a, n)
    ensures InPlace(env, NextFrame(env, a, n), mic, refs, Spot(a.epoch, a.submitted))
  {
    hide Padded, Lined, Accepted;
    var from, ref, s := a.submitted - a.emitted, a.submitted - a.refStart, mic[a.epoch];
    var render, capture := a.reference[ref..ref + n], a.raw[from..from + n];
    AcceptedCut(refs, Spot(a.epoch, a.refStart), a.reference, ref, n);
    QueueCut(s, a.emitted, a.raw, from, n);
    CutInPlace(env, s, refs, Spot(a.epoch, a.submitted), render, capture);
  }

  lemma {:induction false} QueueCut(s: Stream, emitted: nat, raw: seq<Sample>, from: nat, n: nat)
    requires s.origin <= emitted <= s.End() && raw == s.mic[emitted - s.origin..] && from + n <= |raw|
    ensures emitted + from + n <= s.End()
    ensures raw[from..from + n] == s.mic[emitted + from - s.origin..emitted + from + n - s.origin]
  {
  }

  lemma {:induction false} AcceptedCut(refs: References, at: Spot, samples: seq<Sample>, from: nat, n: nat)
    requires Accepted(refs, at, samples) && from + n <= |samples|
    ensures Accepted(refs, Spot(at.epoch, at.position + from), samples[from..from + n])
  {
    AcceptedTail(refs, at, samples, from);
    assert samples[from..from + n] == samples[from..][..n];
  }

  lemma {:induction false} CutInPlace(env: Env, s: Stream, refs: References, at: Spot, render: seq<Sample>, capture: seq<Sample>)
    requires s.origin <= at.position && |render| == |capture| <= env.config.frame && at.position + |capture| <= s.End()
    requires |capture| == env.config.frame || at.position + |capture| == s.End()
    requires Accepted(refs, at, render)
    requires capture == s.mic[at.position - s.origin..at.position + |capture| - s.origin]
    ensures var call := Process(Padded(env, render), Padded(env, capture));
            && |call.render| == |call.capture| == env.config.frame
            && forall i :: 0 <= i < env.config.frame ==> Lined(call, s, refs, at, i)
  {
    var call := Process(Padded(env, render), Padded(env, capture));
    forall i | 0 <= i < env.config.frame ensures Lined(call, s, refs, at, i) {
      if i < |render| { assert call.render[i] == render[i] && call.capture[i] == capture[i]; }
    }
  }

  lemma {:induction false} CalledSynced(env: Env, a: Adapter, mic: Mic, refs: References, spots: seq<Spot>, n: nat)
    requires Clocks(a) && !a.failed && 0 < n <= env.config.frame && a.submitted + n <= a.end
    requires n == env.config.frame || a.submitted + n == a.end
    requires !MissingReferenceFor(a, n)
    requires Synced(env, a, mic, refs, spots) && Due(env, a, spots) == a.submitted
    ensures Synced(env, Called(env, a, n), mic, refs, spots + [Spot(a.epoch, a.submitted)])
  {
    hide NextFrame, Advance, InPlace, MicQueue, RefQueue, Placed, Due, Ready;
    FrameInPlace(env, a, mic, refs, n);
    hide Synced, Clocks, MissingReferenceFor;
    var call := NextFrame(env, a, n);
    AdvanceSynced(env, a, mic, refs, spots, call.render, call.capture, a.submitted + n);
  }

  lemma {:induction false} PumpFrameCalls(env: Env, a: Adapter, n: nat)
    requires env.config.Valid() && Ordered(a) && !a.failed && Aligned(env, a)
    requires 0 < n <= env.config.frame && a.submitted + n <= a.end
    requires n == env.config.frame || a.submitted + n == a.end
    requires !MissingReferenceFor(a, n)
    ensures PumpFrame(env, a, n).history == a.history + [NextFrame(env, a, n)]
  {
    PumpFrameIs(env, a, n);
    AdvanceQueue(env, a, NextFrame(env, a, n).render, NextFrame(env, a, n).capture, a.submitted + n);
    hide Advance, NextFrame, PumpFrame;
  }

  lemma {:induction false} PumpFrameSynced(env: Env, a: Adapter, mic: Mic, refs: References, spots: seq<Spot>, n: nat)
    requires env.config.Valid() && Ordered(a) && !a.failed && Aligned(env, a)
    requires 0 < n <= env.config.frame && a.submitted + n <= a.end
    requires n == env.config.frame || a.submitted + n == a.end
    requires !MissingReferenceFor(a, n)
    requires Synced(env, a, mic, refs, spots) && Due(env, a, spots) == a.submitted
    ensures Synced(env, PumpFrame(env, a, n), mic, refs, spots + [Spot(a.epoch, a.submitted)])
  {
    hide PumpFrame, Called, DropReference, Synced;
    PumpFrameIs(env, a, n);
    CalledSynced(env, a, mic, refs, spots, n);
    var next := Called(env, a, n);
    if !next.failed { DropSynced(env, next, mic, refs, spots + [Spot(a.epoch, a.submitted)], next.submitted); }
  }

  /** A bypass empties the queue; if it resets the backend, that is one more call. */
  ghost function BypassSpots(a: Adapter, spots: seq<Spot>, reset: bool): seq<Spot>
  {
    if reset && a.hasHistory && !a.failed then spots + [Spot(a.epoch, a.end)] else spots
  }

  lemma {:induction false} BypassFields(env: Env, a: Adapter, reason: BypassReason, reset: bool)
    requires Clocks(a)
    ensures var r, restarts := Bypass(env, a, reason, reset), reset && a.hasHistory && !a.failed;
            && r.emitted == r.submitted == a.end
            && r.history == (if restarts then a.history + [ResetHistory] else a.history)
            && (!restarts ==> r.hasHistory == a.hasHistory && r.failed == a.failed)
  {
    hide PushOutput;
  }

  lemma {:induction false} BypassSynced(env: Env, a: Adapter, mic: Mic, refs: References, spots: seq<Spot>, reason: BypassReason, reset: bool)
    requires Clocks(a) && Synced(env, a, mic, refs, spots) && (a.failed || reset || a.submitted == a.end)
    ensures Synced(env, Bypass(env, a, reason, reset), mic, refs, BypassSpots(a, spots, reset))
    ensures Full(env, a.history, spots, a.epoch, a.submitted) ==>
              Full(env, Bypass(env, a, reason, reset).history, BypassSpots(a, spots, reset), a.epoch, a.end)
    ensures reset && !a.failed ==> !InFrame(Bypass(env, a, reason, reset).history)
  {
    hide Placed, Full, Bypass, Accepted, MicQueue;
    var r, after := Bypass(env, a, reason, reset), BypassSpots(a, spots, reset);
    BypassFields(env, a, reason, reset);
    assert a.raw[|a.raw|..] == [];
    BypassMic(a, r, mic);
    if reset && a.hasHistory && !a.failed {
      PlacedAppend(env, a.history, mic, refs, spots, ResetHistory, Spot(a.epoch, a.end));
    }
    if Full(env, a.history, spots, a.epoch, a.submitted) {
      FullAppend(env, a.history, spots, a.epoch, a.submitted, ResetHistory, Spot(a.epoch, a.end), a.end);
      FullLater(env, a.history, spots, a.epoch, a.submitted, a.end);
    }
  }

  lemma {:induction false} FullLater(env: Env, history: seq<Call>, spots: seq<Spot>, epoch: nat, limit: nat, later: nat)
    requires |spots| == |history| && Full(env, history, spots, epoch, limit) && limit <= later
    ensures Full(env, history, spots, epoch, later)
  {
  }

  lemma {:induction false} BypassMic(a: Adapter, r: Adapter, mic: Mic)
    requires MicQueue(a, mic) && r.epoch == a.epoch && r.end == r.emitted == a.end && r.raw == []
    ensures MicQueue(r, mic)
  {
  }

  /** The pump's loop: in place throughout, and full while the stream goes on. */
  lemma {:induction false} PumpLoopSynced(env: Env, a: Adapter, mic: Mic, refs: References, spots: seq<Spot>, stopping: bool)
    returns (after: seq<Spot>)
    requires env.config.Valid() && Ordered(a) && !a.failed && (Aligned(env, a) || (stopping && a.submitted == a.end))
    requires Synced(env, a, mic, refs, spots)
    requires Due(env, a, spots) == a.submitted || (stopping && a.submitted == a.end)
    requires !stopping ==> Full(env, a.history, spots, a.epoch, a.submitted)
    ensures var r := PumpLoop(env, a, stopping);
            && Synced(env, r, mic, refs, after)
            && (!stopping ==> Full(env, r.history, after, a.epoch, r.submitted))
            && (!stopping && !r.failed ==> Due(env, r, after) == r.submitted)
    decreases a.end - a.submitted
  {
    hide PumpFrame, NextFrame, Called, Bypass, MicQueue, RefQueue, Placed;
    after := spots;
    var unprocessed := a.end - a.submitted;
    if unprocessed == 0 || (unprocessed < env.config.frame && !stopping) { return; }
    var n := Min(unprocessed, env.config.frame);
    if MissingReferenceFor(a, n) {
      if stopping || a.submitted < a.refStart || unprocessed >= env.config.maxWait {
        BypassSynced(env, a, mic, refs, spots, MissingReference, true);
        after := BypassSpots(a, spots, true);
      }
    } else {
      var at := Spot(a.epoch, a.submitted);
      PumpFrameSynced(env, a, mic, refs, spots, n);
      PumpFrameCalls(env, a, n);
      var next := PumpFrame(env, a, n);
      if !stopping {
        FullAppend(env, a.history, spots, a.epoch, a.submitted, NextFrame(env, a, n), at, next.submitted);
      }
      after := spots + [at];
      if !next.failed { after := PumpLoopSynced(env, next, mic, refs, spots + [at], stopping); }
    }
  }

  // ---------------------------------------------------------------- between calls

  /** An open stream: in place, nothing padded, and the next frame begins where the
      microphone was handed over up to. */
  ghost predicate Paired(env: Env, a: Adapter, mic: Mic, refs: References, spots: seq<Spot>)
  {
    && Synced(env, a, mic, refs, spots)
    && (!a.closed ==>
          && Full(env, a.history, spots, a.epoch, a.submitted)
          && (!a.failed ==> Due(env, a, spots) == a.submitted))
  }

  // Changing the queues only.
  lemma {:induction false} Requeued(env: Env, a: Adapter, r: Adapter, mic: Mic, refs: References, spots: seq<Spot>, mic': Mic, refs': References)
    requires Paired(env, a, mic, refs, spots) && !a.closed && !r.closed
    requires r.history == a.history && r.hasHistory == a.hasHistory && r.failed == a.failed && r.epoch == a.epoch
    requires a.submitted <= r.submitted <= r.end && (!a.failed ==> r.submitted == a.submitted)
    requires MicQueue(r, mic') && RefQueue(r, refs') && Placed(env, a.history, mic', refs', spots)
    ensures Paired(env, r, mic', refs', spots)
  {
    hide MicQueue, RefQueue, Placed;
  }

  lemma {:induction false} PumpPaired(env: Env, a: Adapter, mic: Mic, refs: References, spots: seq<Spot>) returns (after: seq<Spot>)
    requires env.config.Valid() && Ordered(a) && Aligned(env, a) && !a.closed && Paired(env, a, mic, refs, spots)
    ensures Paired(env, Pump(env, a, false), mic, refs, after)
  {
    hide Bypass, PumpLoop, MicQueue, RefQueue, Placed, Full;
    if a.failed {
      BypassSynced(env, a, mic, refs, spots, BackendFailed, false);
      after := spots;
    } else {
      after := PumpLoopSynced(env, a, mic, refs, spots, false);
    }
  }

  ghost function GrowMic(mic: Mic, epoch: nat, samples: seq<Sample>): Mic
    requires epoch in mic
  {
    mic[epoch := mic[epoch].(mic := mic[epoch].mic + samples)]
  }

  /** Frames that ended before the new audio are where they were. */
  lemma {:induction false} PlacedGrows(env: Env, history: seq<Call>, mic: Mic, refs: References, spots: seq<Spot>, epoch: nat, samples: seq<Sample>)
    requires Placed(env, history, mic, refs, spots) && epoch in mic && Full(env, history, spots, epoch, mic[epoch].End())
    ensures Placed(env, history, GrowMic(mic, epoch, samples), refs, spots)
  {
    forall h | 0 <= h < |history| && history[h].Process?
      ensures InPlace(env, history[h], GrowMic(mic, epoch, samples), refs, spots[h])
    {
      InPlaceGrows(env, history[h], mic, refs, spots[h], epoch, samples);
    }
    hide InPlace;
  }

  lemma {:induction false} InPlaceGrows(env: Env, call: Call, mic: Mic, refs: References, at: Spot, epoch: nat, samples: seq<Sample>)
    requires call.Process? && InPlace(env, call, mic, refs, at) && epoch in mic
    requires at.epoch == epoch ==> at.position + env.config.frame <= mic[epoch].End()
    ensures InPlace(env, call, GrowMic(mic, epoch, samples), refs, at)
  {
    var grown := GrowMic(mic, epoch, samples);
    forall i | 0 <= i < env.config.frame ensures Lined(call, grown[at.epoch], refs, at, i) {
      assert Lined(call, mic[at.epoch], refs, at, i);
    }
  }

  /** New references leave what was heard alone. */
  lemma {:induction false} PlacedHears(env: Env, history: seq<Call>, mic: Mic, refs: References, more: References, spots: seq<Spot>)
    requires Placed(env, history, mic, refs, spots) && forall at :: at in refs ==> at in more && more[at] == refs[at]
    ensures Placed(env, history, mic, more, spots)
  {
    forall h | 0 <= h < |history| && history[h].Process? ensures InPlace(env, history[h], mic, more, spots[h]) {
      var call, at := history[h], spots[h];
      forall i | 0 <= i < env.config.frame ensures Lined(call, mic[at.epoch], more, at, i) {
        assert Lined(call, mic[at.epoch], refs, at, i);
      }
    }
  }

  lemma {:induction false} PushSamplePaired(env: Env, a: Adapter, mic: Mic, refs: References, spots: seq<Spot>, x: Sample)
    returns (after: seq<Spot>)
    requires Settled(env, a) && !a.closed && Paired(env, a, mic, refs, spots)
    ensures Paired(env, PushSample(env, a, x), GrowMic(mic, a.epoch, [x]), refs, after)
  {
    hide Pump, PushOutput, Accepted, InPlace, MicQueue, Placed, GrowMic, Full, Ready;
    MicEnd(a, mic);
    var queued, grown := a.(raw := a.raw + [x], end := a.end + 1), GrowMic(mic, a.epoch, [x]);
    FullLater(env, a.history, spots, a.epoch, a.submitted, a.end);
    PlacedGrows(env, a.history, mic, refs, spots, a.epoch, [x]);
    GrownQueue(a, mic, x);
    if a.failed {
      after := spots;
      PassedOn(env, a, x);
      BypassMic(queued, PushSample(env, a, x), grown);
      hide PushSample;
      Requeued(env, a, PushSample(env, a, x), mic, refs, spots, grown, refs);
    } else {
      Requeued(env, a, queued, mic, refs, spots, grown, refs);
      hide Paired, Synced;
      after := PumpPaired(env, queued, grown, refs, spots);
    }
  }

  lemma {:induction false} MicEnd(a: Adapter, mic: Mic)
    requires MicQueue(a, mic)
    ensures a.epoch in mic && mic[a.epoch].End() == a.end
  {
  }

  lemma {:induction false} PassedOn(env: Env, a: Adapter, x: Sample)
    requires Settled(env, a) && !a.closed && a.failed
    ensures var r := PushSample(env, a, x);
            && r.raw == [] && r.emitted == r.submitted == r.end == a.end + 1 && r.failed
            && r.history == a.history && r.hasHistory == a.hasHistory && r.reference == a.reference && r.refStart == a.refStart
  {
    hide PushOutput;
  }

  lemma {:induction false} GrownQueue(a: Adapter, mic: Mic, x: Sample)
    requires MicQueue(a, mic)
    ensures MicQueue(a.(raw := a.raw + [x], end := a.end + 1), GrowMic(mic, a.epoch, [x]))
  {
  }

  lemma {:induction false} GrowMicTwice(mic: Mic, epoch: nat, x: seq<Sample>, y: seq<Sample>)
    requires epoch in mic
    ensures GrowMic(mic, epoch, []) == mic && GrowMic(GrowMic(mic, epoch, x), epoch, y) == GrowMic(mic, epoch, x + y)
  {
    var s := mic[epoch].mic;
    assert s + [] == s && (s + x) + y == s + (x + y);
    assert mic[epoch := mic[epoch]] == mic;
  }

  lemma {:induction false} PairedEpoch(env: Env, a: Adapter, mic: Mic, refs: References, spots: seq<Spot>)
    requires Paired(env, a, mic, refs, spots)
    ensures a.epoch in mic
  {
  }

  lemma {:induction false} PushSamplesPaired(env: Env, a: Adapter, mic: Mic, refs: References, spots: seq<Spot>, xs: seq<Sample>)
    returns (after: seq<Spot>)
    requires Settled(env, a) && !a.closed && Paired(env, a, mic, refs, spots)
    ensures a.epoch in mic && Paired(env, PushSamples(env, a, xs), GrowMic(mic, a.epoch, xs), refs, after)
    decreases |xs|
  {
    hide *;
    PairedEpoch(env, a, mic, refs, spots);
    PushSamplesLast(env, a, xs);
    if xs == [] {
      GrowMicTwice(mic, a.epoch, [], []);
      after := spots;
    } else {
      var init, last := xs[..|xs| - 1], xs[|xs| - 1];
      after := PushSamplesPaired(env, a, mic, refs, spots, init);
      after := PushSamplePaired(env, PushSamples(env, a, init), GrowMic(mic, a.epoch, init), refs, after, last);
      GrowMicTwice(mic, a.epoch, init, [last]);
      assert init + [last] == xs;
    }
  }

  lemma {:induction false} AcceptedAppend(refs: References, at: Spot, samples: seq<Sample>, x: Sample)
    requires Accepted(refs, at, samples) && Spot(at.epoch, at.position + |samples|) in refs
    requires refs[Spot(at.epoch, at.position + |samples|)] == x
    ensures Accepted(refs, at, samples + [x])
  {
  }

  lemma {:induction false} AcceptedFirst(refs: References, at: Spot, samples: seq<Sample>)
    requires Accepted(refs, at, samples) && samples != []
    ensures at in refs && refs[at] == samples[0]
  {
    assert Was(refs, Spot(at.epoch, at.position + 0), samples[0]);
  }

  lemma {:induction false} PushReferenceSamplePaired(env: Env, a: Adapter, mic: Mic, refs: References, spots: seq<Spot>, x: Sample)
    returns (after: seq<Spot>)
    requires Settled(env, a) && !a.closed && Paired(env, a, mic, refs, spots)
    requires Spot(a.epoch, a.refEnd) in refs && refs[Spot(a.epoch, a.refEnd)] == x
    ensures Paired(env, PushReferenceSample(env, a, x), mic, refs, after)
  {
    hide Pump, MicQueue, RefQueue, Placed, Full, Ready;
    var queued := ReferenceQueued(env, a, x);
    assert PushReferenceSample(env, a, x) == Pump(env, queued, false);
    ReferenceQueuedAccepted(env, a, refs, x);
    MicQueueSame(a, queued, mic);
    Requeued(env, a, queued, mic, refs, spots, mic, refs);
    hide Paired, ReferenceQueued;
    after := PumpPaired(env, queued, mic, refs, spots);
  }

  ghost function ReferenceQueued(env: Env, a: Adapter, x: Sample): Adapter
    requires env.config.Valid()
  {
    var drop := if |a.reference| >= env.config.maxReference then |a.reference| - env.config.maxReference + 1 else 0;
    a.(reference := a.reference[drop..] + [x], refStart := a.refStart + drop, refEnd := a.refEnd + 1)
  }

  lemma {:induction false} ReferenceQueuedAccepted(env: Env, a: Adapter, refs: References, x: Sample)
    requires env.config.Valid() && Clocks(a) && RefQueue(a, refs) && Was(refs, Spot(a.epoch, a.refEnd), x)
    ensures RefQueue(ReferenceQueued(env, a, x), refs)
  {
    hide Accepted;
    var drop := if |a.reference| >= env.config.maxReference then |a.reference| - env.config.maxReference + 1 else 0;
    AcceptedTail(refs, Spot(a.epoch, a.refStart), a.reference, drop);
    AcceptedAppend(refs, Spot(a.epoch, a.refStart + drop), a.reference[drop..], x);
  }

  lemma {:induction false} PushReferencePaired(env: Env, a: Adapter, mic: Mic, refs: References, spots: seq<Spot>, xs: seq<Sample>)
    returns (after: seq<Spot>)
    requires Settled(env, a) && !a.closed && Paired(env, a, mic, refs, spots) && Accepted(refs, Spot(a.epoch, a.refEnd), xs)
    ensures Paired(env, PushReference(env, a, xs), mic, refs, after)
    decreases |xs|
  {
    after := spots;
    if xs == [] { return; }
    if a.failed {
      hide Placed, Full, MicQueue;
      MicQueueSame(a, PushReference(env, a, xs), mic);
    } else {
      AcceptedFirst(refs, Spot(a.epoch, a.refEnd), xs);
      AcceptedTail(refs, Spot(a.epoch, a.refEnd), xs, 1);
      hide Paired, Accepted, PushReferenceSample, Settled;
      after := PushReferenceSamplePaired(env, a, mic, refs, spots, xs[0]);
      after := PushReferencePaired(env, PushReferenceSample(env, a, xs[0]), mic, refs, after, xs[1..]);
    }
  }

  /** The accepted reference with one more block. */
  ghost function Hear(refs: References, epoch: nat, start: nat, samples: seq<Sample>): References
  {
    refs + map p | start <= p < start + |samples| :: Spot(epoch, p) := samples[p - start]
  }

  /** Nothing accepted lies past the reference clock. */
  ghost predicate Known(a: Adapter, refs: References)
  {
    forall at :: at in refs ==> at.epoch < a.epoch || (at.epoch == a.epoch && at.position < a.refEnd)
  }

  lemma {:induction false} HearAccepts(refs: References, epoch: nat, start: nat, samples: seq<Sample>)
    requires forall at :: at in refs ==> at.epoch < epoch || (at.epoch == epoch && at.position < start)
    ensures var more := Hear(refs, epoch, start, samples);
            && Accepted(more, Spot(epoch, start), samples)
            && (forall at :: at in refs ==> at in more && more[at] == refs[at])
            && (forall at :: at in more ==> at.epoch < epoch || (at.epoch == epoch && at.position < start + |samples|))
  {
  }

  lemma {:induction false} PushRenderPaired(env: Env, a: Adapter, mic: Mic, refs: References, spots: seq<Spot>, epoch: nat, start: nat, xs: seq<Sample>)
    returns (after: seq<Spot>)
    requires Settled(env, a) && Paired(env, a, mic, refs, spots) && Known(a, refs)
    requires PushRender(env, a, epoch, start, xs).Accepted?
    ensures var r, more := PushRender(env, a, epoch, start, xs).adapter, Hear(refs, epoch, start, xs);
            Paired(env, r, mic, more, after)
  {
    var more := Hear(refs, epoch, start, xs);
    hide InPlace, Hear, PushReference;
    HearAccepts(refs, epoch, start, xs);
    PlacedHears(env, a.history, mic, refs, more, spots);
    HeardBefore(refs, more, Spot(a.epoch, a.refStart), a.reference);
    NothingAccepted(more, Spot(a.epoch, start));
    hide Placed, Full, MicQueue, Accepted, Ready;
    var base := if a.refEnd < start && xs != [] then a.(reference := [], refStart := start, refEnd := start) else a;
    MicQueueSame(a, base, mic);
    assert RefQueue(base, more);
    Requeued(env, a, base, mic, refs, spots, mic, more);
    hide Paired, Known;
    after := spots;
    if xs != [] { after := PushReferencePaired(env, base, mic, more, spots, xs); }
  }

  lemma {:induction false} HeardBefore(refs: References, more: References, at: Spot, samples: seq<Sample>)
    requires Accepted(refs, at, samples) && forall s :: s in refs ==> s in more && more[s] == refs[s]
    ensures Accepted(more, at, samples)
  {
  }

  lemma {:induction false} NothingAccepted(refs: References, at: Spot)
    ensures Accepted(refs, at, [])
  {
  }

  // ---------------------------------------------------------------- stopping and restarting

  /** A frame of zeros past the end is in place too. */
  lemma {:induction false} FlushFrameSynced(env: Env, a: Adapter, mic: Mic, refs: References, spots: seq<Spot>)
    requires Ordered(a) && !a.failed && a.submitted == a.end && Synced(env, a, mic, refs, spots)
    ensures Synced(env, FlushFrame(env, a), mic, refs, spots + [Spot(a.epoch, Due(env, a, spots))])
  {
    var zeros, at := Zeros(env.config.frame), Spot(a.epoch, Due(env, a, spots));
    assert mic[a.epoch].End() <= at.position;
    assert InPlace(env, Process(zeros, zeros), mic, refs, at);
    hide InPlace, Placed, MicQueue, RefQueue, Advance, Zeros;
    AdvanceSynced(env, a, mic, refs, spots, zeros, zeros, a.end);
  }

  lemma {:induction false} FlushFrameOrdered(env: Env, a: Adapter)
    requires env.config.Valid() && Ordered(a) && !a.failed && a.submitted == a.end
    ensures var r := FlushFrame(env, a); Ordered(r) && r.submitted == r.end == a.end
    ensures FlushFrame(env, a) == Advance(env, a, Zeros(env.config.frame), Zeros(env.config.frame), a.end)
  {
    hide Advance, Zeros;
  }

  lemma {:induction false} FlushSynced(env: Env, a: Adapter, mic: Mic, refs: References, spots: seq<Spot>, frames: nat)
    returns (after: seq<Spot>)
    requires env.config.Valid() && Ordered(a) && a.submitted == a.end && Synced(env, a, mic, refs, spots)
    ensures Synced(env, Flush(env, a, frames), mic, refs, after)
    decreases frames
  {
    after := spots;
    if frames != 0 && a.raw != [] && !a.failed {
      assert |spots| == |a.history|;
      hide Synced, Advance, Zeros, Due, FlushFrame;
      FlushFrameOrdered(env, a);
      FlushFrameSynced(env, a, mic, refs, spots);
      after := FlushSynced(env, FlushFrame(env, a), mic, refs, spots + [Spot(a.epoch, Due(env, a, spots))], frames - 1);
    }
  }

  lemma {:induction false} DrainedSynced(env: Env, a: Adapter, mic: Mic, refs: References, spots: seq<Spot>) returns (after: seq<Spot>)
    requires Settled(env, a) && !a.closed && Paired(env, a, mic, refs, spots)
    ensures Synced(env, Drained(env, a), mic, refs, after)
  {
    hide Bypass, PumpLoop, Flush, MicQueue, RefQueue, Placed, Full;
    if a.failed {
      BypassSynced(env, a, mic, refs, spots, BackendFailed, false);
      after := spots;
    } else {
      after := PumpLoopSynced(env, a, mic, refs, spots, true);
    }
    hide Synced;
    after := FlushSynced(env, Pump(env, a, true), mic, refs, after, FlushFrames(env));
  }

  lemma {:induction false} FinishPaired(env: Env, a: Adapter, mic: Mic, refs: References, spots: seq<Spot>) returns (after: seq<Spot>)
    requires Settled(env, a) && Paired(env, a, mic, refs, spots)
    ensures Paired(env, Finish(env, a), mic, refs, after)
  {
    after := spots;
    if !a.closed {
      hide Drained, Bypass, MicQueue, RefQueue, Placed, Full, Paired;
      after := DrainedSynced(env, a, mic, refs, spots);
      CloseOffPaired(env, Drained(env, a), mic, refs, after);
    }
  }

  lemma {:induction false} CloseOffPaired(env: Env, a: Adapter, mic: Mic, refs: References, spots: seq<Spot>)
    requires Ordered(a) && a.submitted == a.end && Synced(env, a, mic, refs, spots)
    ensures Paired(env, CloseOff(env, a), mic, refs, spots)
  {
    hide Bypass, MicQueue, Placed;
    if a.raw != [] { BypassSynced(env, a, mic, refs, spots, BackendFailed, false); }
    var flushed := if a.raw == [] then a else Bypass(env, a, BackendFailed, false);
    MicQueueSame(flushed, CloseOff(env, a), mic);
  }

  lemma {:induction false} FlushWaitPaired(env: Env, a: Adapter, mic: Mic, refs: References, spots: seq<Spot>) returns (after: seq<Spot>)
    requires Settled(env, a) && Paired(env, a, mic, refs, spots)
    ensures Paired(env, FlushReferenceWait(env, a), mic, refs, after)
  {
    hide Bypass, MicQueue, RefQueue, Placed, Full;
    after := spots;
    if a.end > a.submitted {
      BypassSynced(env, a, mic, refs, spots, MissingReference, true);
      after := BypassSpots(a, spots, true);
    }
  }

  lemma {:induction false} PlacedOpens(env: Env, history: seq<Call>, mic: Mic, refs: References, spots: seq<Spot>, epoch: nat, s: Stream)
    requires Placed(env, history, mic, refs, spots) && epoch !in mic
    ensures Placed(env, history, mic[epoch := s], refs, spots) && Full(env, history, spots, epoch, 0)
  {
    forall h | 0 <= h < |history| && history[h].Process?
      ensures InPlace(env, history[h], mic[epoch := s], refs, spots[h]) && spots[h].epoch != epoch
    {
      assert InPlace(env, history[h], mic, refs, spots[h]);
    }
    hide InPlace;
  }

  lemma {:induction false} ResetPaired(env: Env, a: Adapter, mic: Mic, refs: References, spots: seq<Spot>, epoch: nat, start: nat)
    requires Settled(env, a) && Paired(env, a, mic, refs, spots) && a.epoch < epoch && epoch !in mic
    ensures Paired(env, Reset(env, a, epoch, start).adapter, mic[epoch := Stream(start, [])], refs, spots + [Spot(epoch, start)])
  {
    var r, mic' := Reset(env, a, epoch, start).adapter, mic[epoch := Stream(start, [])];
    assert r.history == a.history + [ResetHistory] && r.raw == [] && r.reference == [];
    PlacedOpens(env, a.history, mic, refs, spots, epoch, Stream(start, []));
    PlacedAppend(env, a.history, mic', refs, spots, ResetHistory, Spot(epoch, start));
    FullAppend(env, a.history, spots, epoch, 0, ResetHistory, Spot(epoch, start), start);
    hide Placed, Full, Bypass, ResetBackend;
    assert MicQueue(r, mic');
    NothingAccepted(refs, Spot(epoch, start));
  }

  // ---------------------------------------------------------------- every run

  /** The reference accepted by one more call. */
  ghost function HearStep(env: Env, w: World, op: Op, refs: References): References
    requires WorldOk(env, w)
  {
    if op.Render? && PushRender(env, w.adapter, op.epoch, op.start, op.samples).Accepted?
    then Hear(refs, op.epoch, op.start, op.samples)
    else refs
  }

  /** The reference accepted in a run, by position. */
  ghost function AcceptedReference(env: Env, epoch: nat, start: nat, pure: bool, ops: seq<Op>): References
    requires env.config.Valid() && (pure ==> PureDelay(env))
    decreases |ops|
  {
    if ops == [] then map[]
    else
      var before := ops[..|ops| - 1];
      HearStep(env, Run(env, epoch, start, pure, before), ops[|ops| - 1], AcceptedReference(env, epoch, start, pure, before))
  }

  lemma {:induction false} StepPaired(env: Env, w: World, op: Op, refs: References, spots: seq<Spot>) returns (after: seq<Spot>)
    requires WorldOk(env, w) && Paired(env, w.adapter, w.book.streams, refs, spots) && Known(w.adapter, refs)
    ensures var r, more := Step(env, w, op), HearStep(env, w, op, refs);
            Paired(env, r.adapter, r.book.streams, more, after) && Known(r.adapter, more)
  {
    var a, mic := w.adapter, w.book.streams;
    assert Settled(env, a) && a.epoch in mic && forall e :: e in mic ==> e <= a.epoch;
    StepKnown(env, w, op, refs);
    hide Faithful, Settled, PushReference, PushSamples, FlushReferenceWait, Finish, Paired, Known, Hear;
    after := spots;
    match op
    case Render(epoch, start, samples) =>
      if PushRender(env, a, epoch, start, samples).Accepted? {
        after := PushRenderPaired(env, a, mic, refs, spots, epoch, start, samples);
      }
    case Capture(epoch, start, samples) =>
      if PushCapture(env, a, epoch, start, samples).Accepted? {
        after := PushSamplesPaired(env, a, mic, refs, spots, samples);
      }
    case FlushWait => after := FlushWaitPaired(env, a, mic, refs, spots);
    case Stop => after := FinishPaired(env, a, mic, refs, spots);
    case Restart(epoch, start) =>
      if a.epoch < epoch {
        ResetPaired(env, a, mic, refs, spots, epoch, start);
        after := spots + [Spot(epoch, start)];
      }
  }

  lemma {:induction false} StepKnown(env: Env, w: World, op: Op, refs: References)
    requires WorldOk(env, w) && Known(w.adapter, refs)
    ensures Known(Step(env, w, op).adapter, HearStep(env, w, op, refs))
  {
    assert Settled(env, w.adapter);
    hide Faithful, PushReference, PushSamples, Drained, Bypass, Settled;
    if op.Render? && PushRender(env, w.adapter, op.epoch, op.start, op.samples).Accepted? {
      HearAccepts(refs, op.epoch, op.start, op.samples);
    }
  }

  lemma {:induction false} RunPaired(env: Env, epoch: nat, start: nat, pure: bool, ops: seq<Op>) returns (spots: seq<Spot>)
    requires env.config.Valid() && (pure ==> PureDelay(env))
    ensures var w, refs := Run(env, epoch, start, pure, ops), AcceptedReference(env, epoch, start, pure, ops);
            Paired(env, w.adapter, w.book.streams, refs, spots) && Known(w.adapter, refs)
    decreases |ops|
  {
    if ops == [] {
      spots := [];
      NewPaired(env, epoch, start);
      hide Paired, Known, WorldOk;
    } else {
      hide Step, HearStep, WorldOk, Known, Paired;
      var before := ops[..|ops| - 1];
      spots := RunPaired(env, epoch, start, pure, before);
      spots := StepPaired(env, Run(env, epoch, start, pure, before), ops[|ops| - 1], AcceptedReference(env, epoch, start, pure, before), spots);
    }
  }

  lemma {:induction false} NewPaired(env: Env, epoch: nat, start: nat)
    ensures Paired(env, New(env, epoch, start), map[epoch := Stream(start, [])], map[], []) && Known(New(env, epoch, start), map[])
  {
    var a, mic, none: References := New(env, epoch, start), map[epoch := Stream(start, [])], map[];
    NothingPlaced(env, mic, none, epoch, start);
    NothingAccepted(none, Spot(epoch, start));
    NewMic(env, epoch, start);
    hide Placed, Full, Accepted, MicQueue;
  }

  lemma {:induction false} NothingPlaced(env: Env, mic: Mic, refs: References, epoch: nat, limit: nat)
    ensures Placed(env, [], mic, refs, []) && Full(env, [], [], epoch, limit)
  {
  }

  lemma {:induction false} NewMic(env: Env, epoch: nat, start: nat)
    ensures MicQueue(New(env, epoch, start), map[epoch := Stream(start, [])])
  {
  }

  /** In every run, each frame the backend was given holds, sample by sample, the
      reference and the microphone accepted for one and the same position, frames
      following each other from reset to reset; past the end of a stopped microphone
      both sides are silent. While the stream goes on the last frame ends where the
      microphone is handed over up to. */
  lemma {:induction false} FramesArePaired(env: Env, epoch: nat, start: nat, pure: bool, ops: seq<Op>) returns (spots: seq<Spot>)
    requires env.config.Valid() && (pure ==> PureDelay(env))
    ensures var w, refs := Run(env, epoch, start, pure, ops), AcceptedReference(env, epoch, start, pure, ops);
            var a := w.adapter;
            && Placed(env, a.history, w.book.streams, refs, spots)
            && (!a.closed && !a.failed && InFrame(a.history) ==>
                  var last := spots[|spots| - 1];
                  last.epoch == a.epoch && last.position + env.config.frame == a.submitted)
  {
    spots := RunPaired(env, epoch, start, pure, ops);
    hide Run, AcceptedReference, Placed, MicQueue, RefQueue, Full;
  }
}
