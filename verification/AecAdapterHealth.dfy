/** The healthy path of the echo adapter: with a backend that answers and a
    reference that keeps ahead of the microphone, nothing is published raw and
    the output lags by exactly the backend's delay. */
module AecAdapterHealth {
  import opened AudioBlocks
  import opened AecAdapter
  import opened AecAdapterRuns

  /** Open, with the reference known from the next sample to hand over up to
      `until`, and less than a frame waiting. */
  ghost predicate Healthy(env: Env, a: Adapter, until: nat)
  {
    && Settled(env, a) && !a.closed && !a.failed
    && a.refStart <= a.submitted && until <= a.refEnd
    && a.end - a.submitted < env.config.frame
  }

  /** From a to r only processed audio was published, and the latency still owed
      went down by what was handed over. */
  ghost predicate CleanedOnly(a: Adapter, r: Adapter)
  {
    && a.emitted <= r.emitted && a.submitted <= r.submitted
    && r.stats == a.stats.(cleaned := a.stats.cleaned + (r.emitted - a.emitted))
    && (forall b :: b in r.out ==> b in a.out || b.kind == Cleaned)
    && r.skip == Owing(a.skip, r.submitted - a.submitted)
  }

  function Owing(skip: nat, paid: nat): nat { if skip < paid then 0 else skip - paid }

  lemma {:induction false} CleanedTwice(a: Adapter, m: Adapter, r: Adapter)
    requires CleanedOnly(a, m) && CleanedOnly(m, r)
    ensures CleanedOnly(a, r)
  {
    forall b | b in r.out
      ensures b in a.out || b.kind == Cleaned
    {
      assert b in m.out || b.kind == Cleaned;
    }
  }

  lemma {:induction false} PushedKinds(out: seq<Output>, block: Output)
    ensures forall b :: b in PushOutput(out, block) ==> b in out || b.kind == block.kind
  {
  }

  /** A full frame with its reference is processed and published cleaned. */
  lemma {:induction false} FrameIsCleaned(env: Env, a: Adapter)
    requires env.config.Valid() && NeverFails(env) && Ordered(a) && !a.failed && Aligned(env, a)
    requires a.submitted + env.config.frame <= a.end && !MissingReferenceFor(a, env.config.frame)
    ensures var r := PumpFrame(env, a, env.config.frame);
            !r.failed && CleanedOnly(a, r) && r.refStart <= r.submitted == a.submitted + env.config.frame
  {
    hide NeverFails, Padded, Advance, EmitProcessed, CallBackend, CleanedOnly, NextFrame, PumpFrame;
    var n := env.config.frame;
    FrameNeverFails(env, a, n);
    PumpFrameIs(env, a, n);
    var next := Called(env, a, n);
    AdvanceIsCleaned(env, a, NextFrame(env, a, n).render, NextFrame(env, a, n).capture, a.submitted + n);
    SameButReference(a, next, DropReference(next, next.submitted));
  }

  lemma {:induction false} SameButReference(a: Adapter, m: Adapter, r: Adapter)
    requires CleanedOnly(a, m) && r == m.(reference := r.reference, refStart := r.refStart)
    ensures CleanedOnly(a, r)
  {
  }

  lemma {:induction false} AdvanceIsCleaned(env: Env, a: Adapter, render: seq<Sample>, capture: seq<Sample>, submitted: nat)
    requires Clocks(a) && !a.failed && submitted == a.submitted + env.config.frame <= a.end
    requires !Advance(env, a, render, capture, submitted).failed
    ensures CleanedOnly(a, Advance(env, a, render, capture, submitted))
  {
    var (called, answer) := CallBackend(env, a, render, capture);
    var skip := Min(a.skip, env.config.frame);
    var count := Min(env.config.frame - skip, |a.raw|);
    if count != 0 {
      PushedKinds(a.out, Output(a.epoch, a.emitted, answer.value[skip..skip + count], Cleaned));
    }
  }

  lemma {:induction false} SampleIsCleaned(env: Env, a: Adapter, sample: Sample)
    requires NeverFails(env) && Healthy(env, a, a.end + 1)
    ensures var r := PushSample(env, a, sample);
            Healthy(env, r, a.end + 1) && CleanedOnly(a, r)
  {
    var pushed := a.(raw := a.raw + [sample], end := a.end + 1);
    assert Ordered(pushed) && Aligned(env, pushed) && CleanedOnly(a, pushed);
    assert PushSample(env, a, sample) == PumpLoop(env, pushed, false);
    hide PushSample, CleanedOnly, Ordered;
    PumpIsCleaned(env, pushed);
    assert CleanedOnly(a, PumpLoop(env, pushed, false)) by {
      hide PumpLoop;
      CleanedTwice(a, pushed, PumpLoop(env, pushed, false));
    }
  }

  /** The pump takes at most the one frame that just became whole. */
  lemma {:induction false} PumpIsCleaned(env: Env, a: Adapter)
    requires env.config.Valid() && NeverFails(env) && Ordered(a) && !a.failed && Aligned(env, a)
    requires a.end - a.submitted <= env.config.frame && a.refStart <= a.submitted && a.end <= a.refEnd
    ensures var r := PumpLoop(env, a, false);
            && !r.failed && CleanedOnly(a, r) && r.refStart <= r.submitted && r.end - r.submitted < env.config.frame
  {
    if a.end - a.submitted == env.config.frame {
      FrameIsCleaned(env, a);
      var next := PumpFrame(env, a, env.config.frame);
      assert PumpLoop(env, next, false) == next;
      hide PumpFrame, CleanedOnly, NeverFails;
      assert PumpLoop(env, a, false) == PumpLoop(env, next, false);
    }
  }

  /** While the reference keeps ahead and the backend answers, every whole frame
      is processed as soon as it is there, only processed audio is published, and
      it lags the audio handed over by the delay alone. */
  lemma {:induction false} HealthyStreamIsCleaned(env: Env, a: Adapter, xs: seq<Sample>)
    requires NeverFails(env) && Healthy(env, a, a.end + |xs|)
    ensures var r := PushSamples(env, a, xs);
            && Healthy(env, r, a.end + |xs|) && CleanedOnly(a, r)
            && r.emitted + env.config.delay == r.submitted + r.skip
  {
    if xs != [] {
      var n := |xs| - 1;
      HealthyStreamIsCleaned(env, a, xs[..n]);
      var mid := PushSamples(env, a, xs[..n]);
      SampleIsCleaned(env, mid, xs[n]);
      hide NeverFails, PushSample, Ordered;
      CleanedTwice(a, mid, PushSample(env, mid, xs[n]));
    }
  }

  // With nothing waiting, reference audio only queues.
  lemma {:induction false} ReferenceOnlyQueues(env: Env, a: Adapter, xs: seq<Sample>)
    requires Settled(env, a) && !a.closed && !a.failed && a.submitted == a.end
    requires |a.reference| + |xs| <= env.config.maxReference
    ensures PushReference(env, a, xs) == a.(reference := a.reference + xs, refEnd := a.refEnd + |xs|)
    decreases |xs|
  {
    if xs == [] {
      assert a.reference + xs == a.reference;
    } else {
      assert a.reference[0..] == a.reference;
      var next := a.(reference := a.reference + [xs[0]], refEnd := a.refEnd + 1);
      assert PushReferenceSample(env, a, xs[0]) == next;
      ReferenceOnlyQueues(env, next, xs[1..]);
      assert a.reference + [xs[0]] + xs[1..] == a.reference + xs;
    }
  }

  /** A new stream whose reference arrives first is accepted and comes out
      cleaned, whole frame by whole frame, the backend's delay behind. */
  lemma {:induction false} FreshStreamIsCleaned(env: Env, epoch: nat, start: nat, reference: seq<Sample>, mic: seq<Sample>)
    requires env.config.Valid() && NeverFails(env) && start + |reference| <= U64_MAX
    requires |mic| <= |reference| <= env.config.maxReference
    ensures var rendered := PushRender(env, New(env, epoch, start), epoch, start, reference);
            && rendered.Accepted?
            && var captured := PushCapture(env, rendered.adapter, epoch, start, mic);
            && captured.Accepted?
            && var r := captured.adapter;
            && (forall b :: b in r.out ==> b.kind == Cleaned)
            && start <= r.emitted && start <= r.submitted && start + |mic| - r.submitted < env.config.frame
            && r.stats == Stats(r.emitted - start, 0, 0)
            && r.emitted == start + if env.config.delay < r.submitted - start then r.submitted - start - env.config.delay else 0
  {
    var a := New(env, epoch, start);
    ReferenceOnlyQueues(env, a, reference);
    var rendered := PushRender(env, a, epoch, start, reference).adapter;
    assert rendered == a.(reference := reference, refEnd := start + |reference|);
    hide NeverFails, PushReference, PushSamples;
    HealthyStreamIsCleaned(env, rendered, mic);
  }

  // ---------------------------------------------------------------- a reference that comes late

  /** Open and working, with one side less than a frame ahead of what is handed over. */
  ghost predicate InTime(env: Env, a: Adapter)
  {
    && Settled(env, a) && !a.closed && !a.failed && a.refStart <= a.submitted
    && (a.refEnd < a.submitted + env.config.frame || a.end < a.submitted + env.config.frame)
  }

  /** Within the wait, microphone audio without its reference only queues. */
  lemma {:induction false} CaptureWaits(env: Env, a: Adapter, xs: seq<Sample>)
    requires Settled(env, a) && !a.closed && !a.failed && a.refStart <= a.submitted
    requires a.refEnd < a.submitted + env.config.frame && a.end - a.submitted + |xs| < env.config.maxWait
    ensures PushSamples(env, a, xs) == a.(raw := a.raw + xs, end := a.end + |xs|)
    decreases |xs|
  {
    hide PushSample, PushSamples, Settled;
    PushSamplesLast(env, a, xs);
    if xs == [] {
      assert a.raw + xs == a.raw;
    } else {
      var n := |xs| - 1;
      CaptureWaits(env, a, xs[..n]);
      SampleWaits(env, PushSamples(env, a, xs[..n]), xs[n]);
      assert a.raw + xs[..n] + [xs[n]] == a.raw + xs;
    }
  }

  lemma {:induction false} SampleWaits(env: Env, a: Adapter, x: Sample)
    requires Settled(env, a) && !a.closed && !a.failed && a.refStart <= a.submitted
    requires a.refEnd < a.submitted + env.config.frame && a.end - a.submitted + 1 < env.config.maxWait
    ensures PushSample(env, a, x) == a.(raw := a.raw + [x], end := a.end + 1)
  {
    hide PumpFrame, Bypass;
  }

  /** The pump takes the frame whose reference just became whole, if there is one,
      and waits for the next. */
  lemma {:induction false} PumpCatchesUp(env: Env, a: Adapter)
    requires env.config.Valid() && NeverFails(env) && Ordered(a) && !a.failed && Aligned(env, a) && a.refStart <= a.submitted
    requires a.end - a.submitted < env.config.maxWait
    requires a.refEnd <= a.submitted + env.config.frame || a.end < a.submitted + env.config.frame
    ensures var r := PumpLoop(env, a, false);
            && !r.failed && CleanedOnly(a, r) && r.refStart <= r.submitted
            && (r.refEnd < r.submitted + env.config.frame || r.end < r.submitted + env.config.frame)
  {
    var n := env.config.frame;
    if a.end - a.submitted >= n && !MissingReferenceFor(a, n) {
      FrameIsCleaned(env, a);
      var next := PumpFrame(env, a, n);
      assert PumpLoop(env, next, false) == next by { hide PumpFrame, CleanedOnly; }
      hide PumpFrame, CleanedOnly, NeverFails;
      assert PumpLoop(env, a, false) == PumpLoop(env, next, false);
    } else {
      assert PumpLoop(env, a, false) == a;
    }
  }

  lemma {:induction false} ReferenceSampleIsUsed(env: Env, a: Adapter, y: Sample)
    requires NeverFails(env) && InTime(env, a) && |a.reference| < env.config.maxReference
    ensures var r := PushReferenceSample(env, a, y);
            InTime(env, r) && CleanedOnly(a, r) && |r.reference| <= |a.reference| + 1
  {
    hide NeverFails, CleanedOnly, PushReferenceSample;
    var queued := a.(reference := a.reference + [y], refEnd := a.refEnd + 1);
    ReferenceQueues(env, a, y);
    hide PumpLoop;
    PumpCatchesUp(env, queued);
    CleanedTwice(a, queued, PumpLoop(env, queued, false));
  }

  lemma {:induction false} ReferenceQueues(env: Env, a: Adapter, y: Sample)
    requires Settled(env, a) && !a.closed && !a.failed && |a.reference| < env.config.maxReference
    ensures var queued := a.(reference := a.reference + [y], refEnd := a.refEnd + 1);
            && Ordered(queued) && Aligned(env, queued) && CleanedOnly(a, queued)
            && PushReferenceSample(env, a, y) == PumpLoop(env, queued, false)
  {
    hide PumpLoop, Bypass;
    assert a.reference[0..] == a.reference;
  }

  lemma {:induction false} ReferenceIsUsed(env: Env, a: Adapter, ys: seq<Sample>)
    requires NeverFails(env) && InTime(env, a) && |a.reference| + |ys| <= env.config.maxReference
    ensures var r := PushReference(env, a, ys);
            InTime(env, r) && CleanedOnly(a, r) && r.end == a.end && r.refEnd == a.refEnd + |ys|
    decreases |ys|
  {
    if ys != [] {
      assert !a.failed && Settled(env, a) && !a.closed;
      ReferenceSampleIsUsed(env, a, ys[0]);
      hide CleanedOnly, NeverFails, PushReferenceSample, InTime, Settled;
      var next := PushReferenceSample(env, a, ys[0]);
      ReferenceIsUsed(env, next, ys[1..]);
      CleanedTwice(a, next, PushReference(env, next, ys[1..]));
    }
  }

  /** A new stream whose microphone arrives first, within the wait, is not given up
      on: its reference is used when it comes, and everything both sides cover comes
      out cleaned, frame by whole frame, the backend's delay behind. */
  lemma {:induction false} LateReferenceIsUsed(env: Env, epoch: nat, start: nat, reference: seq<Sample>, mic: seq<Sample>)
    requires env.config.Valid() && NeverFails(env) && start + |reference| <= U64_MAX && start + |mic| <= U64_MAX
    requires |mic| < env.config.maxWait && |reference| <= env.config.maxReference
    ensures var captured := PushCapture(env, New(env, epoch, start), epoch, start, mic);
            && captured.Accepted?
            && var rendered := PushRender(env, captured.adapter, epoch, start, reference);
            && rendered.Accepted?
            && var r := rendered.adapter;
            && (forall b :: b in r.out ==> b.kind == Cleaned)
            && start <= r.emitted && start <= r.submitted
            && start + Min(|mic|, |reference|) - r.submitted < env.config.frame
            && r.stats == Stats(r.emitted - start, 0, 0)
            && r.emitted == start + if env.config.delay < r.submitted - start then r.submitted - start - env.config.delay else 0
  {
    var a := New(env, epoch, start);
    var captured := a.(raw := mic, end := start + |mic|);
    MicFirst(env, epoch, start, mic);
    assert PushRender(env, captured, epoch, start, reference) == Accepted(PushReference(env, captured, reference));
    hide *;
    ReferenceIsUsed(env, captured, reference);
    LateResult(env, captured, PushReference(env, captured, reference), start);
  }

  lemma {:induction false} MicFirst(env: Env, epoch: nat, start: nat, mic: seq<Sample>)
    requires env.config.Valid() && |mic| < env.config.maxWait && start + |mic| <= U64_MAX
    ensures var a := New(env, epoch, start);
            var r := a.(raw := mic, end := start + |mic|);
            && PushCapture(env, a, epoch, start, mic) == Accepted(r) && InTime(env, r)
  {
    hide PushSamples;
    CaptureWaits(env, New(env, epoch, start), mic);
    assert [] + mic == mic;
  }

  lemma {:induction false} LateResult(env: Env, a: Adapter, r: Adapter, start: nat)
    requires InTime(env, r) && CleanedOnly(a, r) && a.out == [] && a.stats == Stats(0, 0, 0)
    requires a.emitted == a.submitted == start && a.skip == env.config.delay
    ensures (forall b :: b in r.out ==> b.kind == Cleaned) && start <= r.emitted && start <= r.submitted
    ensures Min(r.end, r.refEnd) < r.submitted + env.config.frame && r.stats == Stats(r.emitted - start, 0, 0)
    ensures r.emitted == start + if env.config.delay < r.submitted - start then r.submitted - start - env.config.delay else 0
  {
  }
}
