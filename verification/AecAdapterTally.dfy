/** What the echo adapter says about its output: the counters add up to it, and
    every reason given for original audio is a true one. */
module AecAdapterTally {
  import opened AudioBlocks
  import opened Outcomes
  import opened AecAdapter
  import opened AecAdapterRuns

  /** Samples published raw, or cleaned. */
  ghost function Count(out: seq<Output>, raw: bool): nat
  {
    if out == [] then 0
    else
      var last := out[|out| - 1];
      Count(out[..|out| - 1], raw) + if last.kind.Raw? == raw then |last.samples| else 0
  }

  /** What may be said, where the counters stood before the first block, and whether
      the history is the whole of it. */
  datatype Terms = Terms(kinds: set<OutputKind>, cleaned: int, raw: int, whole: bool)

  ghost predicate Says(out: seq<Output>, kinds: set<OutputKind>)
  {
    forall i :: 0 <= i < |out| ==> out[i].kind in kinds
  }

  ghost predicate Counted(a: Adapter, t: Terms)
  {
    a.stats.cleaned == t.cleaned + Count(a.out, false) && a.stats.raw == t.raw + Count(a.out, true)
  }

  /** A backend that never fails is never blamed. */
  ghost predicate Blameless(env: Env, a: Adapter, kinds: set<OutputKind>)
  {
    && Cleaned in kinds && Raw(MissingReference) in kinds
    && (Raw(BackendFailed) in kinds || (NeverFails(env) && !a.failed))
  }

  /** The last of these calls failed. */
  ghost predicate Fails(env: Env, history: seq<Call>)
  {
    && history != []
    && if history[|history| - 1].ResetHistory? then !env.backend.reset(history)
       else env.backend.process(history).None? || |env.backend.process(history).value| != env.config.frame
  }

  ghost function Failures(env: Env, history: seq<Call>): nat
  {
    if history == [] then 0 else Failures(env, history[..|history| - 1]) + if Fails(env, history) then 1 else 0
  }

  /** Failed calls are counted, and the backend is fenced from one until a reset
      succeeds. */
  ghost predicate Fenced(env: Env, a: Adapter)
  {
    a.stats.failures == Failures(env, a.history) && (a.failed <==> Fails(env, a.history))
  }

  ghost predicate Tally(env: Env, a: Adapter, t: Terms)
  {
    Says(a.out, t.kinds) && Counted(a, t) && Blameless(env, a, t.kinds) && (t.whole ==> Fenced(env, a))
  }

  lemma {:induction false} OneMoreCall(env: Env, history: seq<Call>, call: Call)
    ensures Failures(env, history + [call]) == Failures(env, history) + if Fails(env, history + [call]) then 1 else 0
  {
    assert (history + [call])[..|history + [call]| - 1] == history;
  }

  lemma {:induction false} CountPush(out: seq<Output>, block: Output, raw: bool)
    ensures Count(PushOutput(out, block), raw) == Count(out, raw) + if block.kind.Raw? == raw then |block.samples| else 0
  {
    var r := PushOutput(out, block);
    assert r[..|r| - 1] == out || (out != [] && r[..|r| - 1] == out[..|out| - 1]);
  }

  lemma {:induction false} AppendSays(a: Adapter, samples: seq<Sample>, kind: OutputKind, kinds: set<OutputKind>)
    requires Says(a.out, kinds) && (samples != [] ==> kind in kinds)
    ensures var r := Append(a, samples, kind);
            && Says(r.out, kinds) && r.stats == a.stats && r.failed == a.failed && r.history == a.history
            && Count(r.out, true) == Count(a.out, true) + (if kind.Raw? then |samples| else 0)
            && Count(r.out, false) == Count(a.out, false) + if kind.Raw? then 0 else |samples|
  {
    hide Count, Says, PushOutput;
    if samples != [] {
      CountPush(a.out, Output(a.epoch, a.emitted, samples, kind), true);
      CountPush(a.out, Output(a.epoch, a.emitted, samples, kind), false);
      SaysPush(a.out, Output(a.epoch, a.emitted, samples, kind), kinds);
    }
  }

  lemma {:induction false} SaysPush(out: seq<Output>, block: Output, kinds: set<OutputKind>)
    requires Says(out, kinds) && block.kind in kinds
    ensures Says(PushOutput(out, block), kinds)
  {
  }

  lemma {:induction false} BypassSays(env: Env, a: Adapter, reason: BypassReason, reset: bool, t: Terms)
    requires Clocks(a) && Says(a.out, t.kinds) && Counted(a, t) && (a.raw != [] ==> Raw(reason) in t.kinds)
    requires Blameless(env, a, t.kinds) || Raw(BackendFailed) in t.kinds
    ensures var r := Bypass(env, a, reason, reset);
            && Says(r.out, t.kinds) && Counted(r, t) && (Blameless(env, a, t.kinds) ==> Blameless(env, r, t.kinds))
            && (Fenced(env, a) ==> Fenced(env, r))
  {
    hide Says, Append, Count, Fenced, Bypass, NeverFails, Fails;
    AppendSays(a.(raw := []), a.raw, Raw(reason), t.kinds);
    BypassOut(env, a, reason, reset);
    if Fenced(env, a) { BypassFenced(env, a, reason, reset); }
  }

  lemma {:induction false} BypassOut(env: Env, a: Adapter, reason: BypassReason, reset: bool)
    requires Clocks(a)
    ensures var r := Bypass(env, a, reason, reset);
            && r.out == Append(a.(raw := []), a.raw, Raw(reason)).out
            && r.stats.cleaned == a.stats.cleaned && r.stats.raw == a.stats.raw + |a.raw|
            && (NeverFails(env) ==> r.failed == a.failed)
  {
    hide PushOutput;
  }

  lemma {:induction false} BypassFenced(env: Env, a: Adapter, reason: BypassReason, reset: bool)
    requires Clocks(a) && Fenced(env, a)
    ensures Fenced(env, Bypass(env, a, reason, reset))
  {
    OneMoreCall(env, a.history, ResetHistory);
    hide PushOutput, Failures;
  }

  lemma {:induction false} CallSays(env: Env, a: Adapter, render: seq<Sample>, capture: seq<Sample>, t: Terms)
    requires Clocks(a) && !a.failed && Tally(env, a, t) && |capture| == env.config.frame
    ensures Tally(env, CallBackend(env, a, render, capture).0, t)
  {
    hide Says, Bypass, Count, NeverFails, Failures;
    var called := a.(history := a.history + [Process(render, capture)], hasHistory := true);
    OneMoreCall(env, a.history, Process(render, capture));
    if CallBackend(env, a, render, capture).1.None? {
      if NeverFails(env) { FrameAnswered(env, a, render, capture); }
      assert Raw(BackendFailed) in t.kinds;
      BypassSays(env, called.(failed := true, stats := called.stats.(failures := called.stats.failures + 1)), BackendFailed, false, t);
    }
  }

  lemma {:induction false} EmitSays(env: Env, a: Adapter, processed: seq<Sample>, t: Terms)
    requires |processed| == env.config.frame && a.emitted + |a.raw| == a.end && Tally(env, a, t)
    ensures Tally(env, EmitProcessed(env, a, processed), t)
  {
    hide Says, Append, Count, NeverFails;
    var skip := Min(a.skip, |processed|);
    var count := Min(|processed| - skip, |a.raw|);
    AppendSays(a.(skip := a.skip - skip, raw := a.raw[count..], stats := a.stats.(cleaned := a.stats.cleaned + count)),
               processed[skip..skip + count], Cleaned, t.kinds);
  }

  lemma {:induction false} AdvanceSays(env: Env, a: Adapter, render: seq<Sample>, capture: seq<Sample>, submitted: nat, t: Terms)
    requires Clocks(a) && !a.failed && a.submitted <= submitted <= a.end && Tally(env, a, t) && |capture| == env.config.frame
    ensures Tally(env, Advance(env, a, render, capture, submitted), t)
  {
    CallSays(env, a, render, capture, t);
    hide Says, Count, NeverFails;
    var (called, answer) := CallBackend(env, a, render, capture);
    hide CallBackend;
    if answer.Some? { EmitSays(env, called.(submitted := submitted), answer.value, t); }
    hide EmitProcessed;
  }

  lemma {:induction false} PumpFrameSays(env: Env, a: Adapter, n: nat, t: Terms)
    requires env.config.Valid() && Ordered(a) && !a.failed && Aligned(env, a)
    requires 0 < n <= env.config.frame && a.submitted + n <= a.end
    requires n == env.config.frame || a.submitted + n == a.end
    requires !MissingReferenceFor(a, n) && Tally(env, a, t)
    ensures Tally(env, PumpFrame(env, a, n), t)
  {
    hide Tally, NextFrame, Advance, PumpFrame, DropReference;
    PumpFrameIs(env, a, n);
    AdvanceSays(env, a, NextFrame(env, a, n).render, NextFrame(env, a, n).capture, a.submitted + n, t);
    var next := Called(env, a, n);
    assert Tally(env, next, t);
    hide *;
    DropSays(env, next, next.submitted, t);
  }

  lemma {:induction false} DropSays(env: Env, a: Adapter, upTo: nat, t: Terms)
    requires a.refStart + |a.reference| == a.refEnd && Tally(env, a, t)
    ensures Tally(env, DropReference(a, upTo), t)
  {
    hide Says, Count, NeverFails, Fails, Failures;
  }

  lemma {:induction false} PumpLoopSays(env: Env, a: Adapter, stopping: bool, t: Terms)
    requires env.config.Valid() && Ordered(a) && !a.failed && (Aligned(env, a) || (stopping && a.submitted == a.end)) && Tally(env, a, t)
    ensures Tally(env, PumpLoop(env, a, stopping), t)
    decreases a.end - a.submitted
  {
    hide Says, Counted, NeverFails, PumpFrame, Bypass;
    var unprocessed := a.end - a.submitted;
    if unprocessed == 0 || (unprocessed < env.config.frame && !stopping) { return; }
    var n := Min(unprocessed, env.config.frame);
    if MissingReferenceFor(a, n) {
      BypassSays(env, a, MissingReference, true, t);
    } else {
      PumpFrameSays(env, a, n, t);
      if PumpFrame(env, a, n).failed {
        PumpFailed(env, PumpFrame(env, a, n), stopping);
      } else {
        PumpLoopSays(env, PumpFrame(env, a, n), stopping, t);
      }
    }
  }

  // A fenced backend has nothing left to hand over.
  lemma {:induction false} PumpFailed(env: Env, a: Adapter, stopping: bool)
    requires env.config.Valid() && Ordered(a) && a.failed && a.submitted == a.end
    ensures PumpLoop(env, a, stopping) == a
  {
  }

  lemma {:induction false} PumpSays(env: Env, a: Adapter, stopping: bool, t: Terms)
    requires env.config.Valid() && Ordered(a) && (Aligned(env, a) || (stopping && a.submitted == a.end)) && Tally(env, a, t)
    ensures Tally(env, Pump(env, a, stopping), t)
  {
    hide Says, Counted, NeverFails, PumpLoop, Bypass;
    if a.failed { BypassSays(env, a, BackendFailed, false, t); } else { PumpLoopSays(env, a, stopping, t); }
  }

  lemma {:induction false} PushSampleSays(env: Env, a: Adapter, sample: Sample, t: Terms)
    requires Settled(env, a) && !a.closed && Tally(env, a, t)
    ensures Tally(env, PushSample(env, a, sample), t)
  {
    hide Says, Count, NeverFails, Pump, Append;
    if a.failed {
      AppendSays(a.(end := a.end + 1, submitted := a.end + 1, stats := a.stats.(raw := a.stats.raw + 1)), [sample], Raw(BackendFailed), t.kinds);
    } else {
      PumpSays(env, a.(raw := a.raw + [sample], end := a.end + 1), false, t);
    }
  }

  lemma {:induction false} PushSamplesSay(env: Env, a: Adapter, samples: seq<Sample>, t: Terms)
    requires Settled(env, a) && !a.closed && Tally(env, a, t)
    ensures Tally(env, PushSamples(env, a, samples), t)
    decreases |samples|
  {
    hide Tally, PushSample, Settled;
    if samples != [] {
      PushSamplesSay(env, a, samples[..|samples| - 1], t);
      PushSampleSays(env, PushSamples(env, a, samples[..|samples| - 1]), samples[|samples| - 1], t);
    }
  }

  lemma {:induction false} PushReferenceSampleSays(env: Env, a: Adapter, sample: Sample, t: Terms)
    requires Settled(env, a) && !a.closed && Tally(env, a, t)
    ensures Tally(env, PushReferenceSample(env, a, sample), t)
  {
    hide Says, Count, NeverFails, Pump;
    var drop := if |a.reference| >= env.config.maxReference then |a.reference| - env.config.maxReference + 1 else 0;
    PumpSays(env, a.(reference := a.reference[drop..] + [sample], refStart := a.refStart + drop, refEnd := a.refEnd + 1), false, t);
  }

  lemma {:induction false} PushReferenceSays(env: Env, a: Adapter, samples: seq<Sample>, t: Terms)
    requires Settled(env, a) && !a.closed && Tally(env, a, t)
    ensures Tally(env, PushReference(env, a, samples), t)
    decreases |samples|
  {
    hide Says, Count, NeverFails, PushReferenceSample, Settled;
    if samples != [] && !a.failed {
      PushReferenceSampleSays(env, a, samples[0], t);
      PushReferenceSays(env, PushReferenceSample(env, a, samples[0]), samples[1..], t);
    }
  }

  lemma {:induction false} RenderSays(env: Env, a: Adapter, epoch: nat, start: nat, samples: seq<Sample>, t: Terms)
    requires Settled(env, a) && Tally(env, a, t) && PushRender(env, a, epoch, start, samples).Accepted?
    ensures Tally(env, PushRender(env, a, epoch, start, samples).adapter, t)
  {
    hide Says, Count, NeverFails, PushReference;
    if samples != [] {
      PushReferenceSays(env, if a.refEnd < start then a.(reference := [], refStart := start, refEnd := start) else a, samples, t);
    }
  }

  lemma {:induction false} WaitSays(env: Env, a: Adapter, t: Terms)
    requires Settled(env, a) && Tally(env, a, t)
    ensures Tally(env, FlushReferenceWait(env, a), t)
  {
    hide Says, Counted, NeverFails, Bypass;
    BypassSays(env, a, MissingReference, true, t);
  }

  lemma {:induction false} FlushSays(env: Env, a: Adapter, frames: nat, t: Terms)
    requires env.config.Valid() && Ordered(a) && a.submitted == a.end && Tally(env, a, t)
    ensures Tally(env, Flush(env, a, frames), t)
    decreases frames
  {
    hide Tally, Advance, Zeros;
    if frames != 0 && a.raw != [] && !a.failed {
      AdvanceSays(env, a, Zeros(env.config.frame), Zeros(env.config.frame), a.end, t);
      FlushSays(env, Advance(env, a, Zeros(env.config.frame), Zeros(env.config.frame), a.end), frames - 1, t);
    }
  }

  lemma {:induction false} FinishSays(env: Env, a: Adapter, t: Terms)
    requires Settled(env, a) && Tally(env, a, t)
    ensures Tally(env, Finish(env, a), t)
  {
    if !a.closed {
      if Raw(BackendFailed) !in t.kinds { FinishDrainsItself(env, a); }
      hide Says, Counted, NeverFails, Pump, Flush, Bypass;
      PumpSays(env, a, true, t);
      FlushSays(env, Pump(env, a, true), FlushFrames(env), t);
      var drained := Drained(env, a);
      if drained.raw != [] { BypassSays(env, drained, BackendFailed, false, t); }
    }
  }

  lemma {:induction false} ResetSays(env: Env, a: Adapter, epoch: nat, start: nat, t: Terms)
    requires Settled(env, a) && Tally(env, a, t) && a.epoch < epoch && Raw(RouteReset) in t.kinds
    ensures Tally(env, Reset(env, a, epoch, start).adapter, t)
  {
    BypassSays(env, a, RouteReset, false, t);
    OneMoreCall(env, a.history, ResetHistory);
    BypassKeepsCalls(env, a);
    hide Says, Bypass, Count, Failures;
  }

  lemma {:induction false} BypassKeepsCalls(env: Env, a: Adapter)
    requires Clocks(a)
    ensures Bypass(env, a, RouteReset, false).history == a.history
  {
    hide PushOutput;
  }

  // ---------------------------------------------------------------- the reason given

  /** Everything that was queued is published last, for this reason. */
  ghost predicate Told(a: Adapter, r: Adapter, reason: BypassReason)
  {
    a.raw != [] ==>
      && r.out != []
      && var last := r.out[|r.out| - 1];
      last.kind == Raw(reason) && last.epoch == a.epoch && last.End() == a.end && |a.raw| <= |last.samples|
  }

  lemma {:induction false} BypassTells(env: Env, a: Adapter, reason: BypassReason, reset: bool)
    requires Clocks(a)
    ensures Told(a, Bypass(env, a, reason, reset), reason)
  {
    BypassOut(env, a, reason, reset);
    hide Bypass;
  }

  /** A failed call says so of the originals it releases, giving up a wait that the
      reference is missing, and a new route that there was one. */
  lemma {:induction false} ReleasesTell(env: Env, a: Adapter, render: seq<Sample>, capture: seq<Sample>, epoch: nat, start: nat)
    requires Settled(env, a)
    ensures !a.failed && CallBackend(env, a, render, capture).1.None? ==> Told(a, CallBackend(env, a, render, capture).0, BackendFailed)
    ensures a.submitted < a.end ==> Told(a, FlushReferenceWait(env, a), MissingReference)
    ensures a.epoch < epoch ==> Told(a, Reset(env, a, epoch, start).adapter, RouteReset)
  {
    hide Bypass, Told;
    BypassTells(env, a, MissingReference, true);
    BypassTells(env, a, RouteReset, false);
    ResetTold(env, a, epoch, start);
    if !a.failed && CallBackend(env, a, render, capture).1.None? { CallTold(env, a, render, capture); }
  }

  lemma {:induction false} ResetTold(env: Env, a: Adapter, epoch: nat, start: nat)
    requires Settled(env, a) && Told(a, Bypass(env, a, RouteReset, false), RouteReset)
    ensures a.epoch < epoch ==> Told(a, Reset(env, a, epoch, start).adapter, RouteReset)
  {
    hide Bypass;
  }

  lemma {:induction false} CallTold(env: Env, a: Adapter, render: seq<Sample>, capture: seq<Sample>)
    requires Clocks(a) && !a.failed && CallBackend(env, a, render, capture).1.None?
    ensures Told(a, CallBackend(env, a, render, capture).0, BackendFailed)
  {
    var called := a.(history := a.history + [Process(render, capture)], hasHistory := true);
    var fenced := called.(failed := true, stats := called.stats.(failures := called.stats.failures + 1));
    BypassTells(env, fenced, BackendFailed, false);
    hide Bypass;
  }

  // ---------------------------------------------------------------- every run

  /** What a run may say: the backend is blamed only if it can fail, a new route
      only if there was one. */
  ghost function Sayable(env: Env, ops: seq<Op>): set<OutputKind>
  {
    {Cleaned, Raw(MissingReference)}
    + (if NeverFails(env) then {} else {Raw(BackendFailed)})
    + if Restarts(ops) then {Raw(RouteReset)} else {}
  }

  ghost predicate Restarts(ops: seq<Op>) { exists i :: 0 <= i < |ops| && ops[i].Restart? }

  lemma {:induction false} RestartsLater(ops: seq<Op>)
    requires ops != []
    ensures Restarts(ops[..|ops| - 1]) || ops[|ops| - 1].Restart? ==> Restarts(ops)
  {
  }

  lemma {:induction false} RunTally(env: Env, epoch: nat, start: nat, pure: bool, ops: seq<Op>, kinds: set<OutputKind>)
    requires env.config.Valid() && (pure ==> PureDelay(env))
    requires {Cleaned, Raw(MissingReference)} <= kinds && (Raw(BackendFailed) in kinds || NeverFails(env))
    requires Restarts(ops) ==> Raw(RouteReset) in kinds
    ensures Tally(env, Run(env, epoch, start, pure, ops).adapter, Terms(kinds, 0, 0, true))
    decreases |ops|
  {
    hide NeverFails, Tally, Restarts, Step, WorldOk;
    if ops == [] {
      NewTally(env, epoch, start, kinds);
    } else {
      var before, last := ops[..|ops| - 1], ops[|ops| - 1];
      RestartsLater(ops);
      RunTally(env, epoch, start, pure, before, kinds);
      StepTally(env, Run(env, epoch, start, pure, before), last, Terms(kinds, 0, 0, true));
    }
  }

  lemma {:induction false} NewTally(env: Env, epoch: nat, start: nat, kinds: set<OutputKind>)
    requires {Cleaned, Raw(MissingReference)} <= kinds && (Raw(BackendFailed) in kinds || NeverFails(env))
    ensures Tally(env, New(env, epoch, start), Terms(kinds, 0, 0, true))
  {
    hide NeverFails;
  }

  lemma {:induction false} StepTally(env: Env, w: World, op: Op, t: Terms)
    requires WorldOk(env, w) && Tally(env, w.adapter, t) && (op.Restart? ==> Raw(RouteReset) in t.kinds)
    ensures Tally(env, Step(env, w, op).adapter, t)
  {
    var a := w.adapter;
    assert Settled(env, a);
    hide Tally, Settled, PushReference, PushSamples, FlushReferenceWait, Finish, Faithful;
    match op
    case Render(epoch, start, samples) =>
      if PushRender(env, a, epoch, start, samples).Accepted? { RenderSays(env, a, epoch, start, samples, t); }
    case Capture(epoch, start, samples) =>
      if PushCapture(env, a, epoch, start, samples).Accepted? { PushSamplesSay(env, a, samples, t); }
    case FlushWait => WaitSays(env, a, t);
    case Stop => FinishSays(env, a, t);
    case Restart(epoch, start) => if a.epoch < epoch { ResetSays(env, a, epoch, start, t); }
  }

  /** After any calls, the counters are exactly the samples published cleaned and
      raw and the backend calls that failed; the backend is fenced exactly if the
      last call to it failed; and audio is published raw for want of a reference only, unless the
      backend can fail or the route was reset. */
  lemma {:induction false} CountersAndReasonsAreTrue(env: Env, epoch: nat, start: nat, pure: bool, ops: seq<Op>)
    requires env.config.Valid() && (pure ==> PureDelay(env))
    ensures var a := Run(env, epoch, start, pure, ops).adapter;
            && a.stats.cleaned == Count(a.out, false) && a.stats.raw == Count(a.out, true)
            && a.stats.failures == Failures(env, a.history) && (a.failed <==> Fails(env, a.history))
            && forall i :: 0 <= i < |a.out| ==> a.out[i].kind in Sayable(env, ops)
  {
    hide NeverFails;
    RunTally(env, epoch, start, pure, ops, Sayable(env, ops));
    hide Run, Count;
  }
}
