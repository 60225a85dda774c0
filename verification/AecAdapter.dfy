/** The worker-side echo-canceller adapter as functions on values: it cuts
    microphone and reference audio into fixed frames, hands pairs of frames to a
    backend with a declared delay, and publishes the delayed result on the
    original microphone clock, or the original samples where that fails. */
module AecAdapter {
  import opened AudioBlocks
  import opened Outcomes

  datatype Config = Config(frame: nat, delay: nat, maxWait: nat, maxReference: nat) {
    predicate Valid()
    {
      && 0 < frame <= 1024 && delay <= 16000
      && frame <= maxWait <= 3200
      && frame <= maxReference <= 16000
    }
  }

  /** What the adapter asks of the backend: one paired frame, or a reset. */
  datatype Call = Process(render: seq<Sample>, capture: seq<Sample>) | ResetHistory

  /** Any deterministic backend: each answer depends on every call so far, the
      one being answered last. None is a failed call, a changed shape, or an
      output with an unwritten or non-finite sample. */
  datatype Backend = Backend(process: seq<Call> -> Option<seq<Sample>>, reset: seq<Call> -> bool)

  datatype Env = Env(config: Config, backend: Backend)

  datatype Stats = Stats(cleaned: nat, raw: nat, failures: nat)

  datatype Error = Closed | WrongEpoch | Discontinuous | Overflow

  /** The adapter's fields, the backend's call history, and the caller's output. */
  datatype Adapter = Adapter(
    history: seq<Call>, epoch: nat, end: nat, emitted: nat, submitted: nat,
    refStart: nat, refEnd: nat, raw: seq<Sample>, reference: seq<Sample>,
    skip: nat, hasHistory: bool, failed: bool, closed: bool, stats: Stats, out: seq<Output>)

  datatype Outcome = Accepted(adapter: Adapter) | Refused(error: Error)

  /** The clocks are ordered and the queues are exactly the intervals they name. */
  ghost predicate Clocks(a: Adapter)
  {
    && a.emitted <= a.submitted <= a.end
    && a.emitted + |a.raw| == a.end
    && a.refStart + |a.reference| == a.refEnd
  }

  /** A fenced backend leaves nothing queued. */
  ghost predicate Ordered(a: Adapter)
  {
    Clocks(a) && (a.failed ==> a.raw == [])
  }

  /** What no pump, bypass or backend call touches. */
  ghost predicate SameInput(a: Adapter, r: Adapter)
  {
    && r.end == a.end && r.epoch == a.epoch && r.closed == a.closed
    && r.refEnd == a.refEnd && a.refStart <= r.refStart
  }

  /** Submitted but unpublished samples are exactly the delay already paid for. */
  ghost predicate Aligned(env: Env, a: Adapter)
  {
    a.submitted - a.emitted + a.skip == env.config.delay
  }

  function Min(x: nat, y: nat): nat { if x < y then x else y }

  function Zeros(n: nat): (z: seq<Sample>)
    ensures |z| == n
  {
    seq(n, i => 0.0)
  }

  // The first n samples of `source` in a zeroed frame.
  function Padded(env: Env, source: seq<Sample>): (frame: seq<Sample>)
    ensures |source| <= env.config.frame ==> |frame| == env.config.frame
  {
    if |source| < env.config.frame then source + Zeros(env.config.frame - |source|) else source
  }

  function New(env: Env, epoch: nat, start: nat): Adapter
  {
    Adapter([], epoch, start, start, start, start, start, [], [],
            env.config.delay, false, false, false, Stats(0, 0, 0), [])
  }

  function Append(a: Adapter, samples: seq<Sample>, kind: OutputKind): Adapter
  {
    if samples == [] then a
    else a.(emitted := a.emitted + |samples|,
            out := PushOutput(a.out, Output(a.epoch, a.emitted, samples, kind)))
  }

  function ResetBackend(env: Env, a: Adapter): Adapter
  {
    var history := a.history + [ResetHistory];
    var ok := env.backend.reset(history);
    a.(history := history, hasHistory := false, failed := !ok,
       stats := if ok then a.stats else a.stats.(failures := a.stats.failures + 1))
  }

  /** Publish every queued original and forget the frames in flight. */
  function Bypass(env: Env, a: Adapter, reason: BypassReason, reset: bool): (r: Adapter)
    requires Clocks(a)
    ensures Ordered(r) && Aligned(env, r) && SameInput(a, r)
    ensures r.raw == [] && r.reference == a.reference && r.refStart == a.refStart
    ensures !reset ==> r.failed == a.failed
  {
    var flushed := Append(a.(raw := []), a.raw, Raw(reason));
    var idle := flushed.(stats := flushed.stats.(raw := a.stats.raw + |a.raw|),
                         submitted := a.end, skip := env.config.delay);
    if reset && a.hasHistory && !a.failed then ResetBackend(env, idle) else idle
  }

  /** Call the backend on one pair of frames; a failure fences it and bypasses. */
  function CallBackend(env: Env, a: Adapter, render: seq<Sample>, capture: seq<Sample>): (r: (Adapter, Option<seq<Sample>>))
    requires Clocks(a) && !a.failed
    ensures r.1.None? ==> r.0.failed && Ordered(r.0) && Aligned(env, r.0) && SameInput(a, r.0)
    ensures r.1.None? ==> r.0.raw == [] && r.0.reference == a.reference && r.0.refStart == a.refStart
    ensures r.1.Some? ==> |r.1.value| == env.config.frame
    ensures r.1.Some? ==> r.0 == a.(history := a.history + [Process(render, capture)], hasHistory := true)
  {
    var called := a.(history := a.history + [Process(render, capture)], hasHistory := true);
    var answer := env.backend.process(called.history);
    if answer.Some? && |answer.value| == env.config.frame then (called, answer)
    else
      var fenced := called.(failed := true, stats := called.stats.(failures := called.stats.failures + 1));
      (Bypass(env, fenced, BackendFailed, false), None)
  }

  /** Drop the part of a processed frame that is still backend latency, and
      publish the rest over the oldest queued originals. */
  function EmitProcessed(env: Env, a: Adapter, processed: seq<Sample>): (r: Adapter)
    requires |processed| == env.config.frame
    requires a.emitted + |a.raw| == a.end
    ensures SameInput(a, r) && r.reference == a.reference && r.refStart == a.refStart
    ensures r.history == a.history && r.hasHistory == a.hasHistory
    ensures r.submitted == a.submitted && r.failed == a.failed
    ensures r.emitted + |r.raw| == r.end
    ensures r.skip == a.skip - Min(a.skip, env.config.frame)
    ensures r.emitted == a.emitted + Min(env.config.frame - Min(a.skip, env.config.frame), |a.raw|)
  {
    var skip := Min(a.skip, |processed|);
    var count := Min(|processed| - skip, |a.raw|);
    var waiting := a.(skip := a.skip - skip);
    if count == 0 then waiting
    else
      var taken := waiting.(raw := a.raw[count..], stats := a.stats.(cleaned := a.stats.cleaned + count));
      Append(taken, processed[skip..skip + count], Cleaned)
  }

  /** One backend call and, unless it fails, the publication that follows it;
      `submitted` is how far the microphone has then been handed over. */
  function Advance(env: Env, a: Adapter, render: seq<Sample>, capture: seq<Sample>, submitted: nat): (r: Adapter)
    requires Clocks(a) && !a.failed && a.submitted <= submitted <= a.end
    ensures SameInput(a, r) && r.reference == a.reference && r.refStart == a.refStart
    ensures r.emitted + |r.raw| == r.end && r.submitted == (if r.failed then a.end else submitted)
    ensures r.failed <==> CallBackend(env, a, render, capture).1.None?
    ensures r.failed ==> r.raw == [] && r.skip == env.config.delay
    ensures !r.failed ==>
              && r.history == a.history + [Process(render, capture)] && r.hasHistory
              && r.skip == a.skip - Min(a.skip, env.config.frame)
              && r.emitted == a.emitted + Min(env.config.frame - Min(a.skip, env.config.frame), |a.raw|)
  {
    var (called, answer) := CallBackend(env, a, render, capture);
    if answer.None? then called
    else EmitProcessed(env, called.(submitted := submitted), answer.value)
  }

  function DropReference(a: Adapter, upTo: nat): (r: Adapter)
    requires a.refStart + |a.reference| == a.refEnd
    ensures r.refStart + |r.reference| == r.refEnd && |r.reference| <= |a.reference|
    ensures r == a.(reference := r.reference, refStart := r.refStart) && a.refStart <= r.refStart
  {
    if a.refStart < upTo then
      var n := Min(upTo - a.refStart, |a.reference|);
      a.(reference := a.reference[n..], refStart := a.refStart + n)
    else a
  }

  predicate MissingReferenceFor(a: Adapter, n: nat)
  {
    a.submitted < a.refStart || a.submitted + n > a.refEnd
  }

  /** Process the next n samples, whose reference is complete, as one frame. */
  function PumpFrame(env: Env, a: Adapter, n: nat): (r: Adapter)
    requires env.config.Valid() && Ordered(a) && !a.failed && Aligned(env, a)
    requires 0 < n <= env.config.frame && a.submitted + n <= a.end
    requires n == env.config.frame || a.submitted + n == a.end
    requires !MissingReferenceFor(a, n)
    ensures Ordered(r) && SameInput(a, r) && |r.reference| <= |a.reference|
    ensures r.failed || n == env.config.frame ==> Aligned(env, r)
    ensures r.submitted == (if r.failed then a.end else a.submitted + n)
    ensures !r.failed ==> Min(r.submitted, r.refEnd) <= r.refStart
  {
    var mic := a.submitted - a.emitted;
    var ref := a.submitted - a.refStart;
    var next := Advance(env, a, Padded(env, a.reference[ref..ref + n]), Padded(env, a.raw[mic..mic + n]), a.submitted + n);
    if next.failed then next else DropReference(next, next.submitted)
  }

  /** Process every frame that is complete on both sides. */
  function PumpLoop(env: Env, a: Adapter, stopping: bool): (r: Adapter)
    requires env.config.Valid() && Ordered(a)
    requires Aligned(env, a) || a.submitted == a.end
    ensures Ordered(r) && SameInput(a, r) && |r.reference| <= |a.reference|
    ensures !stopping && Aligned(env, a) ==> Aligned(env, r)
    ensures !stopping ==> r.end - r.submitted < env.config.maxWait
    ensures !stopping ==> r.refStart <= r.submitted || r.end - r.submitted < env.config.frame
    ensures stopping ==> r.submitted == r.end
    decreases a.end - a.submitted
  {
    var unprocessed := a.end - a.submitted;
    if unprocessed == 0 || (unprocessed < env.config.frame && !stopping) then a
    else
      var n := Min(unprocessed, env.config.frame);
      if MissingReferenceFor(a, n) then
        if stopping || a.submitted < a.refStart || unprocessed >= env.config.maxWait
        then Bypass(env, a, MissingReference, true)
        else a
      else PumpLoop(env, PumpFrame(env, a, n), stopping)
  }

  function Pump(env: Env, a: Adapter, stopping: bool): (r: Adapter)
    requires env.config.Valid() && Ordered(a)
    requires Aligned(env, a) || a.submitted == a.end
    ensures Ordered(r) && SameInput(a, r) && |r.reference| <= |a.reference|
    ensures !stopping && Aligned(env, a) ==> Aligned(env, r)
    ensures !stopping ==> r.end - r.submitted < env.config.maxWait
    ensures !stopping ==> r.refStart <= r.submitted || r.end - r.submitted < env.config.frame
    ensures stopping ==> r.submitted == r.end
  {
    if a.failed then Bypass(env, a, BackendFailed, false) else PumpLoop(env, a, stopping)
  }

  /** Between calls: ordered clocks, aligned delay and bounded queues. */
  ghost predicate Settled(env: Env, a: Adapter)
  {
    && env.config.Valid()
    && Ordered(a)
    && (a.closed ==> a.raw == [])
    && (!a.closed ==> Aligned(env, a))
    && a.end - a.submitted < env.config.maxWait
    && |a.reference| <= env.config.maxReference
  }

  /** One accepted microphone sample. */
  function PushSample(env: Env, a: Adapter, sample: Sample): (r: Adapter)
    requires Settled(env, a) && !a.closed
    ensures Settled(env, r) && r.end == a.end + 1
    ensures r.epoch == a.epoch && !r.closed && r.refEnd == a.refEnd
  {
    if a.failed then
      var passed := a.(end := a.end + 1, submitted := a.end + 1, stats := a.stats.(raw := a.stats.raw + 1));
      Append(passed, [sample], Raw(BackendFailed))
    else Pump(env, a.(raw := a.raw + [sample], end := a.end + 1), false)
  }

  /** Accepted microphone samples, one at a time. */
  function PushSamples(env: Env, a: Adapter, samples: seq<Sample>): (r: Adapter)
    requires Settled(env, a) && !a.closed
    ensures Settled(env, r) && r.end == a.end + |samples|
    ensures r.epoch == a.epoch && !r.closed && r.refEnd == a.refEnd
  {
    if samples == [] then a
    else PushSample(env, PushSamples(env, a, samples[..|samples| - 1]), samples[|samples| - 1])
  }

  /** One reference sample, evicting the oldest when the queue is full. */
  function PushReferenceSample(env: Env, a: Adapter, sample: Sample): (r: Adapter)
    requires Settled(env, a) && !a.closed
    ensures Settled(env, r) && r.end == a.end && r.epoch == a.epoch && !r.closed
    ensures r.refEnd == a.refEnd + 1
  {
    var drop := if |a.reference| >= env.config.maxReference then |a.reference| - env.config.maxReference + 1 else 0;
    Pump(env, a.(reference := a.reference[drop..] + [sample],
                 refStart := a.refStart + drop, refEnd := a.refEnd + 1), false)
  }

  function PushReference(env: Env, a: Adapter, samples: seq<Sample>): (r: Adapter)
    requires Settled(env, a) && !a.closed
    ensures Settled(env, r) && r.end == a.end && r.epoch == a.epoch && !r.closed
    ensures r.refEnd == a.refEnd + |samples|
    decreases |samples|
  {
    if samples == [] then a
    else if a.failed then
      a.(reference := [], refEnd := a.refEnd + |samples|, refStart := a.refEnd + |samples|)
    else PushReference(env, PushReferenceSample(env, a, samples[0]), samples[1..])
  }

  function Validate(a: Adapter, epoch: nat, start: nat, samples: seq<Sample>): (r: Option<Error>)
    ensures r.None? <==> !a.closed && epoch == a.epoch && start + |samples| <= U64_MAX
  {
    if a.closed then Some(Closed)
    else if epoch != a.epoch then Some(WrongEpoch)
    else if start + |samples| > U64_MAX then Some(Overflow)
    else None
  }

  function PushRender(env: Env, a: Adapter, epoch: nat, start: nat, samples: seq<Sample>): (r: Outcome)
    requires Settled(env, a)
    ensures r.Accepted? <==> Validate(a, epoch, start, samples).None? && a.refEnd <= start
    ensures r.Accepted? ==> Settled(env, r.adapter) && r.adapter.end == a.end && r.adapter.epoch == a.epoch && !r.adapter.closed
    ensures r.Accepted? && samples != [] ==> r.adapter.refEnd == start + |samples|
  {
    var refused := Validate(a, epoch, start, samples);
    if refused.Some? then Refused(refused.value)
    else if start < a.refEnd then Refused(Discontinuous)
    else if samples == [] then Accepted(a)
    else if a.refEnd < start then
      Accepted(PushReference(env, a.(reference := [], refStart := start, refEnd := start), samples))
    else Accepted(PushReference(env, a, samples))
  }

  function PushCapture(env: Env, a: Adapter, epoch: nat, start: nat, samples: seq<Sample>): (r: Outcome)
    requires Settled(env, a)
    ensures r.Accepted? <==> Validate(a, epoch, start, samples).None? && start == a.end
    ensures r.Accepted? ==> Settled(env, r.adapter) && r.adapter.end == a.end + |samples| && r.adapter.epoch == a.epoch && !r.adapter.closed
    ensures r.Accepted? ==> r.adapter.refEnd == a.refEnd
  {
    var refused := Validate(a, epoch, start, samples);
    if refused.Some? then Refused(refused.value)
    else if start != a.end then Refused(Discontinuous)
    else Accepted(PushSamples(env, a, samples))
  }

  function FlushReferenceWait(env: Env, a: Adapter): (r: Adapter)
    requires Settled(env, a)
    ensures Settled(env, r) && SameInput(a, r) && r.submitted == r.end
    ensures a.submitted < a.end ==> r.raw == []
  {
    if a.end > a.submitted then Bypass(env, a, MissingReference, true) else a
  }

  /** Frames of zeros that push the declared delay out of the backend. */
  function Flush(env: Env, a: Adapter, frames: nat): (r: Adapter)
    requires env.config.Valid() && Ordered(a) && a.submitted == a.end
    ensures Ordered(r) && SameInput(a, r) && r.submitted == r.end
    ensures |r.reference| <= |a.reference|
    decreases frames
  {
    if frames == 0 || a.raw == [] || a.failed then a
    else Flush(env, Advance(env, a, Zeros(env.config.frame), Zeros(env.config.frame), a.end), frames - 1)
  }

  function FlushFrames(env: Env): nat
    requires env.config.Valid()
  {
    (env.config.delay + env.config.frame - 1) / env.config.frame + 1
  }

  /** The queue left over after the padded flush, which `Finish` bypasses. */
  function Drained(env: Env, a: Adapter): (r: Adapter)
    requires Settled(env, a)
    ensures Ordered(r) && SameInput(a, r) && r.submitted == r.end
    ensures |r.reference| <= |a.reference|
  {
    Flush(env, Pump(env, a, true), FlushFrames(env))
  }

  function Finish(env: Env, a: Adapter): (r: Adapter)
    requires Settled(env, a)
    ensures Settled(env, r) && r.closed && r.emitted == r.end == a.end && r.epoch == a.epoch
    ensures r.refEnd == a.refEnd
  {
    if a.closed then a else CloseOff(env, Drained(env, a))
  }

  /** Publish what the flush left over and close the stream. */
  function CloseOff(env: Env, drained: Adapter): (r: Adapter)
    requires Ordered(drained) && drained.submitted == drained.end
    ensures Ordered(r) && r.raw == [] && r.closed && r.reference == [] && r.submitted == r.end == drained.end
    ensures r.epoch == drained.epoch && r.refEnd == drained.refEnd
  {
    var flushed := if drained.raw == [] then drained else Bypass(env, drained, BackendFailed, false);
    flushed.(reference := [], refStart := flushed.refEnd, closed := true)
  }

  function Reset(env: Env, a: Adapter, epoch: nat, start: nat): (r: Outcome)
    requires Settled(env, a)
    ensures r.Accepted? <==> a.epoch < epoch
    ensures r.Accepted? ==> Settled(env, r.adapter) && !r.adapter.closed
    ensures r.Accepted? ==> r.adapter.epoch == epoch && r.adapter.end == r.adapter.emitted == r.adapter.refEnd == start
  {
    if epoch <= a.epoch then Refused(WrongEpoch)
    else
      var released := Bypass(env, a, RouteReset, false);
      Accepted(ResetBackend(env, released.(
        epoch := epoch, end := start, emitted := start, submitted := start, reference := [],
        refStart := start, refEnd := start, skip := env.config.delay, closed := false)))
  }

  /** Two calls are one call with both blocks: both are accepted exactly when the
      one is, and leave the same outputs, counters and state. */
  lemma {:induction false} PushCaptureSplits(env: Env, a: Adapter, epoch: nat, start: nat, x: seq<Sample>, y: seq<Sample>)
    requires Settled(env, a)
    ensures var whole, first := PushCapture(env, a, epoch, start, x + y), PushCapture(env, a, epoch, start, x);
            && (whole.Accepted? <==>
                  first.Accepted? && PushCapture(env, first.adapter, epoch, start + |x|, y).Accepted?)
            && (whole.Accepted? ==> PushCapture(env, first.adapter, epoch, start + |x|, y) == whole)
  {
    if PushCapture(env, a, epoch, start, x + y).Accepted? {
      hide PushSamples, Settled;
      PushSamplesSplits(env, a, x, y);
    }
  }

  lemma {:induction false} PushSamplesLast(env: Env, a: Adapter, xs: seq<Sample>)
    requires Settled(env, a) && !a.closed
    ensures xs == [] ==> PushSamples(env, a, xs) == a
    ensures xs != [] ==> PushSamples(env, a, xs) == PushSample(env, PushSamples(env, a, xs[..|xs| - 1]), xs[|xs| - 1])
  {
    hide PushSample, Settled;
  }

  // Sample by sample, any split is the same fold.
  lemma {:induction false} PushSamplesSplits(env: Env, a: Adapter, x: seq<Sample>, y: seq<Sample>)
    requires Settled(env, a) && !a.closed
    ensures PushSamples(env, PushSamples(env, a, x), y) == PushSamples(env, a, x + y)
    decreases |y|
  {
    if y == [] {
      assert x + y == x;
    } else {
      PushSamplesSplits(env, a, x, y[..|y| - 1]);
      assert (x + y)[..|x + y| - 1] == x + y[..|y| - 1];
    }
  }
}
