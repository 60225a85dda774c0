/** The adapter as the object the worker thread owns: queues, counters and work
    frames updated in place, loop by loop, and proved equal to the functions of
    `AecAdapter` on its view. */
module AecAdapterObject {
  import opened AudioBlocks
  import opened Outcomes
  import opened AecAdapter

  /** The caller's growing vector of outputs. */
  class OutputLog {
    var blocks: seq<Output>

    constructor ()
      ensures blocks == []
    {
      blocks := [];
    }
  }

  /** What pushing to a fenced backend does sample by sample, in one append. */
  function PassThroughFenced(a: Adapter, rest: seq<Sample>): Adapter
  {
    Append(a.(end := a.end + |rest|, submitted := a.end + |rest|, stats := a.stats.(raw := a.stats.raw + |rest|)),
           rest, Raw(BackendFailed))
  }

  lemma {:induction false} FencedPushIsOneAppend(env: Env, a: Adapter, rest: seq<Sample>)
    requires Settled(env, a) && !a.closed && a.failed && rest != []
    ensures PushSamples(env, a, rest) == PassThroughFenced(a, rest)
  {
    hide PushOutput, Pump, Bypass;
    var n := |rest| - 1;
    if n == 0 {
      assert rest[..0] == [] && rest == [rest[0]];
    } else {
      FencedPushIsOneAppend(env, a, rest[..n]);
      assert rest[..n] + [rest[n]] == rest;
      PushOutputMerges(a.out, a.epoch, a.emitted, Raw(BackendFailed), rest[..n], [rest[n]]);
    }
  }

  /** The next n samples of the reference, padded to a frame. */
  function RenderAhead(env: Env, a: Adapter, n: nat): seq<Sample>
    requires Clocks(a) && n <= env.config.frame && !MissingReferenceFor(a, n)
  {
    Padded(env, a.reference[a.submitted - a.refStart..a.submitted - a.refStart + n])
  }

  /** The next n samples of the microphone, padded to a frame. */
  function CaptureAhead(env: Env, a: Adapter, n: nat): seq<Sample>
    requires Clocks(a) && n <= env.config.frame && a.submitted + n <= a.end
  {
    Padded(env, a.raw[a.submitted - a.emitted..a.submitted - a.emitted + n])
  }

  /** The backend call of one pump step, before the passed reference is forgotten. */
  function FrameAdvance(env: Env, a: Adapter, n: nat): (r: Adapter)
    requires env.config.Valid() && Clocks(a) && !a.failed
    requires n <= env.config.frame && a.submitted + n <= a.end && !MissingReferenceFor(a, n)
    ensures r.refStart + |r.reference| == r.refEnd
  {
    Advance(env, a, RenderAhead(env, a, n), CaptureAhead(env, a, n), a.submitted + n)
  }

  lemma {:induction false} FrameIsAdvance(env: Env, a: Adapter, n: nat)
    requires env.config.Valid() && Ordered(a) && !a.failed && Aligned(env, a)
    requires 0 < n <= env.config.frame && a.submitted + n <= a.end
    requires n == env.config.frame || a.submitted + n == a.end
    requires !MissingReferenceFor(a, n)
    ensures var next := FrameAdvance(env, a, n);
            PumpFrame(env, a, n) == if next.failed then next else DropReference(next, next.submitted)
  {
    hide Advance, DropReference, Padded, Aligned;
  }

  lemma {:induction false} PumpableHas(env: Env, a: Adapter)
    requires Pumpable(env, a)
    ensures Clocks(a) && a.submitted <= a.end
  {
  }

  ghost predicate Pumpable(env: Env, a: Adapter)
  {
    env.config.Valid() && Ordered(a) && (Aligned(env, a) || a.submitted == a.end)
  }

  /** A pass either leaves the loop's result or a state the loop goes on from. */
  ghost predicate Passed(env: Env, a: Adapter, b: Adapter, stopping: bool, more: bool)
    requires Pumpable(env, a)
  {
    if more then
      && Pumpable(env, b) && b.end - b.submitted < a.end - a.submitted
      && PumpLoop(env, a, stopping) == PumpLoop(env, b, stopping)
    else b == PumpLoop(env, a, stopping)
  }

  lemma {:induction false} PassMeans(env: Env, a: Adapter, b: Adapter, stopping: bool, more: bool)
    requires Pumpable(env, a) && Passed(env, a, b, stopping, more)
    ensures if more then Pumpable(env, b) && PumpLoop(env, a, stopping) == PumpLoop(env, b, stopping)
            else b == PumpLoop(env, a, stopping)
    ensures b.submitted <= b.end && (more ==> b.end - b.submitted < a.end - a.submitted)
  {
    hide PumpLoop;
  }

  lemma {:induction false} LoopEnds(env: Env, a: Adapter, stopping: bool)
    requires Pumpable(env, a)
    requires a.end == a.submitted || (a.end - a.submitted < env.config.frame && !stopping)
    ensures Passed(env, a, a, stopping, false)
  {
    hide PumpFrame, Bypass;
  }

  lemma {:induction false} LoopWaits(env: Env, a: Adapter, stopping: bool)
    requires Pumpable(env, a)
    requires a.end != a.submitted && (a.end - a.submitted >= env.config.frame || stopping)
    requires a.submitted < a.refStart || a.submitted + Min(a.end - a.submitted, env.config.frame) > a.refEnd
    ensures if stopping || a.submitted < a.refStart || a.end - a.submitted >= env.config.maxWait
            then Passed(env, a, Bypass(env, a, MissingReference, true), stopping, false)
            else Passed(env, a, a, stopping, false)
  {
    hide PumpFrame, Bypass;
  }

  lemma {:induction false} LoopGoesOn(env: Env, a: Adapter, stopping: bool)
    requires Pumpable(env, a)
    requires a.end != a.submitted && (a.end - a.submitted >= env.config.frame || stopping)
    requires !(a.submitted < a.refStart || a.submitted + Min(a.end - a.submitted, env.config.frame) > a.refEnd)
    ensures var n := Min(a.end - a.submitted, env.config.frame);
            && env.config.Valid() && Ordered(a) && !a.failed && Aligned(env, a)
            && 0 < n <= env.config.frame && a.submitted + n <= a.end
            && (n == env.config.frame || a.submitted + n == a.end) && !MissingReferenceFor(a, n)
            && Passed(env, a, PumpFrame(env, a, n), stopping, true)
  {
    hide PumpFrame, Bypass;
  }

  lemma {:induction false} PumpUnfolds(env: Env, a: Adapter, stopping: bool)
    requires Pumpable(env, a)
    ensures Clocks(a) && a.submitted <= a.end
    ensures Pump(env, a, stopping) == if a.failed then Bypass(env, a, BackendFailed, false) else PumpLoop(env, a, stopping)
  {
    hide Bypass, PumpLoop;
  }

  class EchoAdapter {
    const env: Env
    var history: seq<Call>
    var epoch: nat
    var end: nat
    var emitted: nat
    var submitted: nat
    var refStart: nat
    var refEnd: nat
    var raw: seq<Sample>
    var reference: seq<Sample>
    const renderFrame: array<Sample>
    const captureFrame: array<Sample>
    const processedFrame: array<Sample>
    var skip: nat
    var hasHistory: bool
    var failed: bool
    var closed: bool
    var stats: Stats

    ghost function View(out: OutputLog): Adapter
      reads this, out
    {
      Adapter(history, epoch, end, emitted, submitted, refStart, refEnd, raw, reference,
              skip, hasHistory, failed, closed, stats, out.blocks)
    }

    lemma {:induction false} ViewHas(out: OutputLog)
      ensures View(out).end == end && View(out).submitted == submitted && View(out).failed == failed
      ensures View(out).refStart == refStart && View(out).refEnd == refEnd
    {
    }

    ghost predicate Frames()
    {
      && env.config.Valid()
      && renderFrame.Length == captureFrame.Length == processedFrame.Length == env.config.frame
      && renderFrame != captureFrame && captureFrame != processedFrame && renderFrame != processedFrame
    }

    /** What holds between calls. */
    ghost predicate Valid(out: OutputLog)
      reads this, out
    {
      Frames() && Settled(env, View(out))
    }

    constructor (env: Env, epoch: nat, start: nat, out: OutputLog)
      requires env.config.Valid() && out.blocks == []
      ensures Valid(out) && this.env == env
      ensures View(out) == New(env, epoch, start)
      ensures fresh(renderFrame) && fresh(captureFrame) && fresh(processedFrame)
    {
      this.env := env;
      this.epoch, end, emitted, submitted, refStart, refEnd := epoch, start, start, start, start, start;
      history, raw, reference := [], [], [];
      skip, hasHistory, failed, closed, stats := env.config.delay, false, false, false, Stats(0, 0, 0);
      renderFrame := new Sample[env.config.frame];
      captureFrame := new Sample[env.config.frame];
      processedFrame := new Sample[env.config.frame];
    }

    method AppendBlock(samples: seq<Sample>, kind: OutputKind, out: OutputLog)
      modifies this`emitted, out
      ensures View(out) == Append(old(View(out)), samples, kind)
    {
      if samples == [] { return; }
      var start := emitted;
      emitted := emitted + |samples|;
      var n := |out.blocks|;
      if n > 0 && out.blocks[n - 1].epoch == epoch && out.blocks[n - 1].kind == kind && out.blocks[n - 1].End() == start {
        var last := out.blocks[n - 1];
        out.blocks := out.blocks[n - 1 := last.(samples := last.samples + samples)];
        assert old(out.blocks)[..n - 1] + [last.(samples := last.samples + samples)] == out.blocks;
      } else {
        out.blocks := out.blocks + [Output(epoch, start, samples, kind)];
      }
    }

    method RestartBackend(out: OutputLog)
      modifies this`history, this`hasHistory, this`failed, this`stats
      ensures View(out) == ResetBackend(env, old(View(out)))
    {
      hasHistory := false;
      history := history + [ResetHistory];
      failed := !env.backend.reset(history);
      if failed {
        stats := stats.(failures := stats.failures + 1);
      }
    }

    method BypassQueue(reason: BypassReason, reset: bool, out: OutputLog)
      requires Clocks(View(out))
      modifies this, out
      ensures View(out) == Bypass(env, old(View(out)), reason, reset)
    {
      hide PushOutput, Append, ResetBackend, Clocks;
      ghost var a := View(out);
      var samples := raw;
      raw := [];
      AppendBlock(samples, Raw(reason), out);
      assert View(out) == Append(a.(raw := []), a.raw, Raw(reason));
      stats := stats.(raw := stats.raw + |samples|);
      submitted := end;
      skip := env.config.delay;
      if reset && hasHistory && !failed {
        RestartBackend(out);
      }
    }

    /** Copy n queued samples into a zeroed work frame. */
    method FillFrame(frame: array<Sample>, source: seq<Sample>, offset: nat, n: nat)
      requires n <= frame.Length == env.config.frame && offset + n <= |source|
      modifies frame
      ensures frame[..] == Padded(env, source[offset..offset + n])
    {
      for i := 0 to frame.Length
        invariant forall k :: 0 <= k < i ==> frame[k] == 0.0
      {
        frame[i] := 0.0;
      }
      for i := 0 to n
        invariant forall k :: 0 <= k < i ==> frame[k] == source[offset + k]
        invariant forall k :: i <= k < frame.Length ==> frame[k] == 0.0
      {
        frame[i] := source[offset + i];
      }
      assert frame[..] == Padded(env, source[offset..offset + n]);
    }

    /** Hand the two work frames to the backend; a refusal fences it. */
    method ProcessFrames(out: OutputLog) returns (ok: bool)
      requires Frames() && Clocks(View(out)) && !failed
      modifies this, out, processedFrame
      ensures var call := CallBackend(env, old(View(out)), old(renderFrame[..]), old(captureFrame[..]));
              && View(out) == call.0
              && ok == call.1.Some?
              && (ok ==> processedFrame[..] == call.1.value)
    {
      hide PushOutput, Append, Bypass;
      hasHistory := true;
      history := history + [Call.Process(renderFrame[..], captureFrame[..])];
      var answer := env.backend.process(history);
      ok := answer.Some? && |answer.value| == env.config.frame;
      if !ok {
        failed := true;
        stats := stats.(failures := stats.failures + 1);
        BypassQueue(BackendFailed, false, out);
      } else {
        for i := 0 to env.config.frame
          modifies processedFrame
          invariant forall k :: 0 <= k < i ==> processedFrame[k] == answer.value[k]
        {
          processedFrame[i] := answer.value[i];
        }
        assert processedFrame[..] == answer.value;
      }
    }

    method EmitFrame(out: OutputLog)
      requires Frames() && emitted + |raw| == end
      modifies this, out
      ensures View(out) == EmitProcessed(env, old(View(out)), processedFrame[..])
    {
      hide PushOutput, Append;
      var dropped := Min(skip, processedFrame.Length);
      skip := skip - dropped;
      var count := Min(processedFrame.Length - dropped, |raw|);
      if count == 0 { return; }
      var samples := processedFrame[dropped..dropped + count];
      assert samples == processedFrame[..][dropped..dropped + count];
      raw := raw[count..];
      stats := stats.(cleaned := stats.cleaned + count);
      AppendBlock(samples, Cleaned, out);
    }

    /** Forget reference audio the microphone has passed. */
    method DropPassedReference(out: OutputLog)
      requires refStart + |reference| == refEnd
      modifies this`reference, this`refStart
      ensures View(out) == DropReference(old(View(out)), submitted)
    {
      ghost var a := View(out);
      ghost var passed := Min(if submitted < refStart then 0 else submitted - refStart, |reference|);
      ghost var k := 0;
      while refStart < submitted && reference != []
        invariant 0 <= k <= passed && refStart == a.refStart + k
        invariant reference == a.reference[k..]
        invariant View(out) == a.(reference := reference, refStart := refStart)
        decreases |reference|
      {
        reference := reference[1..];
        refStart := refStart + 1;
        k := k + 1;
      }
      assert k == passed;
    }

    /** One backend call and the publication that follows it. */
    method AdvanceFrames(upTo: nat, out: OutputLog)
      requires Frames() && Clocks(View(out)) && !failed && submitted <= upTo <= end
      modifies this, out, processedFrame
      ensures View(out) == Advance(env, old(View(out)), old(renderFrame[..]), old(captureFrame[..]), upTo)
    {
      hide PushOutput, Append;
      var ok := ProcessFrames(out);
      if ok {
        submitted := upTo;
        EmitFrame(out);
      }
    }

    /** Load the next n samples of both queues and put them through the backend. */
    method FeedBackend(n: nat, out: OutputLog)
      requires Frames() && Clocks(View(out)) && !failed
      requires n <= env.config.frame && submitted + n <= end
      requires !MissingReferenceFor(View(out), n)
      modifies this, out, renderFrame, captureFrame, processedFrame
      ensures View(out) == FrameAdvance(env, old(View(out)), n)
      ensures View(out).failed == failed && View(out).submitted == submitted && refStart + |reference| == refEnd
    {
      ghost var a := View(out);
      LoadFrames(n, out);
      assert View(out) == a;
      hide Advance, RenderAhead, CaptureAhead;
      AdvanceFrames(submitted + n, out);
      assert View(out) == FrameAdvance(env, a, n);
    }

    /** One pass of the pump's loop body past its guards. */
    method PumpOne(n: nat, out: OutputLog)
      requires Frames() && Ordered(View(out)) && !failed && Aligned(env, View(out))
      requires 0 < n <= env.config.frame && submitted + n <= end
      requires n == env.config.frame || submitted + n == end
      requires !MissingReferenceFor(View(out), n)
      modifies this, out, renderFrame, captureFrame, processedFrame
      ensures View(out) == PumpFrame(env, old(View(out)), n)
    {
      FrameIsAdvance(env, View(out), n);
      assert Clocks(View(out)) && !View(out).failed;
      hide *;
      FeedBackend(n, out);
      if !failed {
        DropPassedReference(out);
      }
    }

    method LoadFrames(n: nat, out: OutputLog)
      requires Frames() && Clocks(View(out))
      requires n <= env.config.frame && submitted + n <= end
      requires !MissingReferenceFor(View(out), n)
      modifies renderFrame, captureFrame
      ensures captureFrame[..] == CaptureAhead(env, View(out), n)
      ensures renderFrame[..] == RenderAhead(env, View(out), n)
    {
      FillFrame(captureFrame, raw, submitted - emitted, n);
      FillFrame(renderFrame, reference, submitted - refStart, n);
    }

    /** One pass of the pump's loop; `more` says whether it goes round again. */
    method PumpPass(stopping: bool, out: OutputLog) returns (more: bool)
      requires Frames() && Pumpable(env, View(out))
      modifies this, out, renderFrame, captureFrame, processedFrame
      ensures Passed(env, old(View(out)), View(out), stopping, more)
    {
      hide *;
      ghost var a := View(out);
      PumpableHas(env, a);
      ViewHas(out);
      var unprocessed := end - submitted;
      if unprocessed == 0 || (unprocessed < env.config.frame && !stopping) {
        LoopEnds(env, a, stopping);
        return false;
      }
      var n := Min(unprocessed, env.config.frame);
      if submitted < refStart || submitted + n > refEnd {
        LoopWaits(env, a, stopping);
        if stopping || submitted < refStart || unprocessed >= env.config.maxWait {
          BypassQueue(MissingReference, true, out);
        }
        return false;
      }
      LoopGoesOn(env, a, stopping);
      PumpOne(n, out);
      more := true;
    }

    method PumpQueues(stopping: bool, out: OutputLog)
      requires Frames() && Pumpable(env, View(out))
      modifies this, out, renderFrame, captureFrame, processedFrame
      ensures View(out) == Pump(env, old(View(out)), stopping)
    {
      ghost var a := View(out);
      PumpUnfolds(env, a, stopping);
      ViewHas(out);
      hide *;
      if failed {
        BypassQueue(BackendFailed, false, out);
        return;
      }
      var more := true;
      while more
        invariant Frames()
        invariant more ==> Pumpable(env, View(out)) && PumpLoop(env, View(out), stopping) == PumpLoop(env, a, stopping)
        invariant !more ==> View(out) == PumpLoop(env, a, stopping)
        decreases more, View(out).end - View(out).submitted
      {
        ghost var b := View(out);
        more := PumpPass(stopping, out);
        PassMeans(env, b, View(out), stopping, more);
      }
    }

    /** Reference audio on the source clock; a jump ahead restarts the queue. */
    method PushRenderBlock(epoch: nat, start: nat, samples: seq<Sample>, out: OutputLog) returns (error: Option<Error>)
      requires Valid(out)
      modifies this, out, renderFrame, captureFrame, processedFrame
      ensures Valid(out)
      ensures error.Some? ==> PushRender(env, old(View(out)), epoch, start, samples) == Refused(error.value) && View(out) == old(View(out))
      ensures error.None? ==> PushRender(env, old(View(out)), epoch, start, samples) == Accepted(View(out))
    {
      error := CheckInput(epoch, start, samples, out);
      if error.Some? { return; }
      if start < refEnd { return Some(Discontinuous); }
      if samples == [] { return; }
      if start > refEnd {
        reference, refStart, refEnd := [], start, start;
      }
      RenderSamples(start, samples, out);
    }

    method RenderSamples(start: nat, samples: seq<Sample>, out: OutputLog)
      requires Valid(out) && !closed && refEnd == start
      modifies this, out, renderFrame, captureFrame, processedFrame
      ensures View(out) == PushReference(env, old(View(out)), samples)
    {
      hide Settled, PushReferenceSample;
      ghost var a := View(out);
      var i := 0;
      while i < |samples|
        invariant 0 <= i <= |samples| && refEnd == start + i
        invariant Valid(out) && !closed
        invariant PushReference(env, View(out), samples[i..]) == PushReference(env, a, samples)
      {
        if failed {
          reference, refEnd, refStart := [], start + |samples|, start + |samples|;
          return;
        }
        PushOneReference(samples[i], out);
        assert samples[i..][1..] == samples[i + 1..];
        i := i + 1;
      }
      assert samples[i..] == [];
    }

    /** Make room before a push, so that a full queue never grows. */
    method EvictReference(out: OutputLog)
      modifies this`reference, this`refStart
      ensures var a := old(View(out));
              var drop := if |a.reference| >= env.config.maxReference then |a.reference| - env.config.maxReference + 1 else 0;
              drop <= |a.reference| && View(out) == a.(reference := a.reference[drop..], refStart := a.refStart + drop)
      requires Frames()
    {
      ghost var a := View(out);
      ghost var popped := 0;
      while |reference| >= env.config.maxReference
        invariant 0 <= popped <= |a.reference| && reference == a.reference[popped..]
        invariant popped == 0 || |reference| >= env.config.maxReference - 1
        invariant View(out) == a.(reference := reference, refStart := a.refStart + popped)
        decreases |reference|
      {
        reference := reference[1..];
        refStart := refStart + 1;
        popped := popped + 1;
      }
    }

    method PushOneReference(sample: Sample, out: OutputLog)
      requires Valid(out) && !closed && !failed
      modifies this, out, renderFrame, captureFrame, processedFrame
      ensures View(out) == PushReferenceSample(env, old(View(out)), sample)
    {
      hide Pump;
      EvictReference(out);
      reference := reference + [sample];
      refEnd := refEnd + 1;
      PumpQueues(false, out);
    }

    method CheckInput(epoch: nat, start: nat, samples: seq<Sample>, out: OutputLog) returns (error: Option<Error>)
      ensures error == Validate(View(out), epoch, start, samples)
    {
      if closed { return Some(Closed); }
      if epoch != this.epoch { return Some(WrongEpoch); }
      if start + |samples| > U64_MAX { return Some(Overflow); }
      return None;
    }

    /** Microphone audio, of any callback size, on its original clock. */
    method PushCaptureBlock(epoch: nat, start: nat, samples: seq<Sample>, out: OutputLog) returns (error: Option<Error>)
      requires Valid(out)
      modifies this, out, renderFrame, captureFrame, processedFrame
      ensures Valid(out)
      ensures error.Some? ==> PushCapture(env, old(View(out)), epoch, start, samples) == Refused(error.value) && View(out) == old(View(out))
      ensures error.None? ==> PushCapture(env, old(View(out)), epoch, start, samples) == Accepted(View(out))
    {
      error := CheckInput(epoch, start, samples, out);
      if error.Some? { return; }
      if start != end { return Some(Discontinuous); }
      CaptureSamples(samples, out);
    }

    method CaptureSamples(samples: seq<Sample>, out: OutputLog)
      requires Valid(out) && !closed
      modifies this, out, renderFrame, captureFrame, processedFrame
      ensures View(out) == PushSamples(env, old(View(out)), samples)
    {
      hide Settled, PushSample;
      ghost var a := View(out);
      for at := 0 to |samples|
        invariant Valid(out) && !closed
        invariant View(out) == PushSamples(env, a, samples[..at])
      {
        if failed {
          PassRest(samples[at..], out);
          PushSamplesSplits(env, a, samples[..at], samples[at..]);
          assert samples[..at] + samples[at..] == samples;
          return;
        }
        assert samples[..at + 1][..at] == samples[..at];
        PushOne(samples[at], out);
      }
      assert samples[..|samples|] == samples;
    }

    method PushOne(sample: Sample, out: OutputLog)
      requires Valid(out) && !closed && !failed
      modifies this, out, renderFrame, captureFrame, processedFrame
      ensures View(out) == PushSample(env, old(View(out)), sample)
    {
      hide Pump;
      raw := raw + [sample];
      end := end + 1;
      PumpQueues(false, out);
    }

    /** A fenced backend: copy the rest of a callback straight out. */
    method PassRest(rest: seq<Sample>, out: OutputLog)
      requires Valid(out) && !closed && failed && rest != []
      modifies this, out
      ensures View(out) == PushSamples(env, old(View(out)), rest)
      ensures Valid(out)
    {
      FencedPushIsOneAppend(env, View(out), rest);
      end := end + |rest|;
      submitted := end;
      AppendBlock(rest, Raw(BackendFailed), out);
      stats := stats.(raw := stats.raw + |rest|);
    }

    method FlushWait(out: OutputLog)
      requires Valid(out)
      modifies this, out
      ensures Valid(out) && View(out) == FlushReferenceWait(env, old(View(out)))
    {
      if end > submitted {
        BypassQueue(MissingReference, true, out);
      }
    }

    method ClearFrames()
      requires Frames()
      modifies renderFrame, captureFrame
      ensures renderFrame[..] == Zeros(env.config.frame) == captureFrame[..]
    {
      FillFrame(renderFrame, [], 0, 0);
      FillFrame(captureFrame, [], 0, 0);
      assert renderFrame[..] == Zeros(env.config.frame) == captureFrame[..];
    }

    /** The padded flush of `finish`. */
    method FlushDelay(out: OutputLog)
      requires Frames() && Ordered(View(out)) && submitted == end
      modifies this, out, renderFrame, captureFrame, processedFrame
      ensures View(out) == Flush(env, old(View(out)), FlushFrames(env))
    {
      hide Advance, Append, CallBackend, EmitProcessed, PushOutput;
      ghost var a := View(out);
      var total := FlushFrames(env);
      for i := 0 to total
        invariant Ordered(View(out)) && submitted == end
        invariant Flush(env, View(out), total - i) == Flush(env, a, total)
      {
        if raw == [] || failed { return; }
        ClearFrames();
        AdvanceFrames(end, out);
      }
    }

    method FinishStream(out: OutputLog)
      requires Valid(out)
      modifies this, out, renderFrame, captureFrame, processedFrame
      ensures Valid(out) && View(out) == Finish(env, old(View(out)))
    {
      if closed { return; }
      hide Pump, Flush, CloseOff, FlushFrames;
      PumpQueues(true, out);
      FlushDelay(out);
      CloseStream(out);
    }

    method CloseStream(out: OutputLog)
      requires Ordered(View(out)) && submitted == end
      modifies this, out
      ensures View(out) == CloseOff(env, old(View(out)))
    {
      hide Bypass;
      if raw != [] {
        BypassQueue(BackendFailed, false, out);
      }
      reference := [];
      refStart := refEnd;
      closed := true;
    }

    method ResetStream(epoch: nat, start: nat, out: OutputLog) returns (error: Option<Error>)
      requires Valid(out)
      modifies this, out
      ensures Valid(out)
      ensures error.Some? ==> Reset(env, old(View(out)), epoch, start) == Refused(error.value) && View(out) == old(View(out))
      ensures error.None? ==> Reset(env, old(View(out)), epoch, start) == Accepted(View(out))
    {
      if epoch <= this.epoch { return Some(WrongEpoch); }
      hide Settled;
      error := None;
      SwitchRoute(epoch, start, out);
    }

    method SwitchRoute(epoch: nat, start: nat, out: OutputLog)
      requires Clocks(View(out)) && this.epoch < epoch
      modifies this, out
      ensures View(out) == ResetBackend(env, Bypass(env, old(View(out)), RouteReset, false).(
        epoch := epoch, end := start, emitted := start, submitted := start, reference := [],
        refStart := start, refEnd := start, skip := env.config.delay, closed := false))
    {
      hide PushOutput, Append, Bypass, ResetBackend;
      BypassQueue(RouteReset, false, out);
      StartAt(epoch, start, out);
      RestartBackend(out);
    }

    method StartAt(epoch: nat, start: nat, out: OutputLog)
      modifies this
      ensures View(out) == old(View(out)).(
        epoch := epoch, end := start, emitted := start, submitted := start, reference := [],
        refStart := start, refEnd := start, skip := env.config.delay, closed := false)
    {
      StartClocks(epoch, start, out);
      reference, refStart, refEnd := [], start, start;
    }

    method StartClocks(epoch: nat, start: nat, out: OutputLog)
      modifies this`epoch, this`end, this`emitted, this`submitted, this`skip, this`closed
      ensures View(out) == old(View(out)).(
        epoch := epoch, end := start, emitted := start, submitted := start, skip := env.config.delay, closed := false)
    {
      this.epoch, end, emitted, submitted, skip, closed := epoch, start, start, start, env.config.delay, false;
    }
  }
}
