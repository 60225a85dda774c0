/** What the adapter promises over any sequence of calls: its outputs tile every
    epoch, raw audio is the original, a pure-delay backend is undone exactly, and
    a backend that never fails is always drained by its own flush. */
module AecAdapterRuns {
  import opened AudioBlocks
  import opened Outcomes
  import opened AecAdapter

  /** Microphone samples handed to the backend since its last reset. */
  ghost function Fed(history: seq<Call>): (fed: seq<Sample>)
  {
    if history == [] then []
    else
      var last := history[|history| - 1];
      if last.ResetHistory? then [] else Fed(history[..|history| - 1]) + last.capture
  }

  /** The newest frame of a line that holds every sample back by the delay. */
  ghost function DelayLine(env: Env, fed: seq<Sample>): (frame: seq<Sample>)
    requires env.config.frame <= |fed|
  {
    (Zeros(env.config.delay) + fed)[|fed| - env.config.frame..|fed|]
  }

  ghost predicate IsFrameCall(env: Env, history: seq<Call>)
  {
    history != [] && history[|history| - 1].Process? && |history[|history| - 1].capture| == env.config.frame
  }

  /** A backend that only delays the microphone by its declared delay. */
  ghost predicate PureDelay(env: Env)
  {
    && (forall h :: IsFrameCall(env, h) ==> env.backend.process(h) == Some(DelayLine(env, Fed(h))))
    && (forall h :: env.backend.reset(h))
  }

  ghost predicate NeverFails(env: Env)
  {
    && (forall h :: IsFrameCall(env, h) ==>
          env.backend.process(h).Some? && |env.backend.process(h).value| == env.config.frame)
    && (forall h :: env.backend.reset(h))
  }

  /** The backend has been fed the microphone from position b on (then zeros past
      the end), and `skip` and `emitted` account for exactly that much. */
  ghost predicate Follows(env: Env, a: Adapter, s: Stream, b: nat)
  {
    var fed := Fed(a.history);
    var late := Min(env.config.delay, |fed|);
    && !a.failed && (a.hasHistory || fed == [])
    && s.origin <= b
    && a.skip == env.config.delay - late
    && a.submitted == Min(a.end, b + |fed|)
    && a.emitted == Min(a.end, b + |fed| - late)
    && forall i :: 0 <= i < |fed| && b + i < s.End() ==> fed[i] == s.mic[b + i - s.origin]
  }

  /** What the log is measured against: the streams accepted so far, where each
      one's part of the log starts, and whether cleaned audio must match too. */
  datatype Book = Book(streams: map<nat, Stream>, starts: map<nat, nat>, pure: bool)

  /** The log tiles one stream; the current epoch's only up to `emitted`. */
  ghost predicate TilesStream(out: seq<Output>, k: Book, epoch: nat, emitted: nat, e: nat)
    requires e in k.streams && e in k.starts
  {
    Tiles(out, e, k.starts[e], if e == epoch then emitted else k.streams[e].End())
  }

  ghost predicate Covers(out: seq<Output>, k: Book, epoch: nat, emitted: nat)
  {
    && k.streams.Keys == k.starts.Keys
    && AllGenuine(k.streams, out, k.pure)
    && forall e {:trigger TilesStream(out, k, epoch, emitted, e)} ::
         e in k.streams ==> TilesStream(out, k, epoch, emitted, e)
  }

  /** The queue is the unpublished end of the current stream. */
  ghost predicate Holds(k: Book, epoch: nat, end: nat, emitted: nat, raw: seq<Sample>, out: seq<Output>)
  {
    && epoch in k.streams
    && var s := k.streams[epoch];
    && s.End() == end
    && s.origin <= emitted
    && emitted + |raw| == end
    && raw == s.mic[emitted - s.origin..]
    && Covers(out, k, epoch, emitted)
  }

  ghost predicate Tracks(a: Adapter, k: Book) { Holds(k, a.epoch, a.end, a.emitted, a.raw, a.out) }

  /** Published so far from b on, with nothing padded: the usual state. */
  ghost predicate InStep(env: Env, a: Adapter, s: Stream)
  {
    && |Fed(a.history)| + s.origin <= a.submitted
    && Follows(env, a, s, a.submitted - |Fed(a.history)|)
  }

  // Publishing the next block of the current epoch keeps the log in order.
  lemma {:induction false} CoversPush(out: seq<Output>, k: Book, emitted: nat, block: Output)
    requires block.epoch in k.streams && Covers(out, k, block.epoch, emitted)
    requires block.start == emitted && block.samples != []
    requires Genuine(k.streams[block.epoch], block, k.pure)
    ensures Covers(PushOutput(out, block), k, block.epoch, block.End())
  {
    PushOutputGenuine(k.streams, out, block, k.pure);
    forall e | e in k.streams
      ensures TilesStream(PushOutput(out, block), k, block.epoch, block.End(), e)
    {
      assert TilesStream(out, k, block.epoch, emitted, e);
      PushOutputTiles(out, block, e, k.starts[e], if e == block.epoch then emitted else k.streams[e].End());
    }
  }

  // The front of the queue is the stream at `emitted`; the rest still is its tail.
  lemma {:induction false} QueueSplits(s: Stream, emitted: nat, raw: seq<Sample>, n: nat)
    requires s.origin <= emitted <= s.End() && raw == s.mic[emitted - s.origin..] && n <= |raw|
    ensures Matches(s, emitted, raw[..n])
    ensures emitted + n <= s.End() && raw[n..] == s.mic[emitted + n - s.origin..]
  {
  }

  lemma {:induction false} AppendTracks(a: Adapter, k: Book, n: nat, samples: seq<Sample>, kind: OutputKind)
    requires Tracks(a, k)
    requires n == |samples| <= |a.raw|
    requires kind.Raw? || k.pure ==> samples == a.raw[..n]
    ensures Tracks(Append(a.(raw := a.raw[n..]), samples, kind), k)
  {
    hide Covers, PushOutput;
    var s, block := k.streams[a.epoch], Output(a.epoch, a.emitted, samples, kind);
    QueueSplits(s, a.emitted, a.raw, n);
    assert Genuine(s, block, k.pure);
    hide Matches, Genuine;
    if samples != [] { CoversPush(a.out, k, a.emitted, block); }
  }

  lemma {:induction false} BypassTracks(env: Env, a: Adapter, k: Book, reason: BypassReason, reset: bool)
    requires Clocks(a) && Tracks(a, k)
    ensures Tracks(Bypass(env, a, reason, reset), k)
  {
    AppendTracks(a, k, |a.raw|, a.raw, Raw(reason));
    assert a.raw[|a.raw|..] == [] && a.raw[..|a.raw|] == a.raw;
  }

  // After a bypass that restarts the backend, the line is empty again.
  lemma {:induction false} BypassFollows(env: Env, a: Adapter, s: Stream, b: nat, reason: BypassReason)
    requires PureDelay(env) && Clocks(a) && s.End() == a.end && Follows(env, a, s, b)
    ensures var r := Bypass(env, a, reason, true);
            Follows(env, r, s, a.end) && |Fed(r.history)| == 0 && !r.failed
  {
    assert Fed(Bypass(env, a, reason, true).history) == [];
  }

  lemma {:induction false} FedGrows(history: seq<Call>, render: seq<Sample>, capture: seq<Sample>)
    ensures Fed(history + [Process(render, capture)]) == Fed(history) + capture
  {
    assert (history + [Process(render, capture)])[..|history|] == history;
  }

  // A failed call publishes the originals.
  lemma {:induction false} FailedCallTracks(env: Env, a: Adapter, k: Book, render: seq<Sample>, capture: seq<Sample>)
    requires Clocks(a) && !a.failed && Tracks(a, k)
    requires CallBackend(env, a, render, capture).1.None?
    ensures Tracks(CallBackend(env, a, render, capture).0, k)
  {
    var fenced := a.(history := a.history + [Process(render, capture)], hasHistory := true, failed := true,
                     stats := a.stats.(failures := a.stats.failures + 1));
    BypassTracks(env, fenced, k, BackendFailed, false);
  }

  // A pure delay answers every frame with its delayed input.
  lemma {:induction false} PureAnswer(env: Env, a: Adapter, render: seq<Sample>, capture: seq<Sample>)
    requires PureDelay(env) && Clocks(a) && !a.failed && |capture| == env.config.frame
    ensures CallBackend(env, a, render, capture).1 == Some(DelayLine(env, Fed(a.history) + capture))
  {
    FedGrows(a.history, render, capture);
    assert IsFrameCall(env, a.history + [Process(render, capture)]);
  }

  lemma {:induction false} EmitFields(env: Env, a: Adapter, processed: seq<Sample>, skip: nat, count: nat)
    requires |processed| == env.config.frame && a.emitted + |a.raw| == a.end
    requires skip == Min(a.skip, env.config.frame) && count == Min(env.config.frame - skip, |a.raw|)
    ensures var r, s := EmitProcessed(env, a, processed), Append(a.(raw := a.raw[count..]), processed[skip..skip + count], Cleaned);
            r.epoch == s.epoch && r.end == s.end && r.emitted == s.emitted && r.raw == s.raw && r.out == s.out
  {
    hide PushOutput;
    assert a.raw[0..] == a.raw;
  }

  // What a processed frame publishes is in step with the microphone.
  lemma {:induction false} EmitTracks(env: Env, a: Adapter, k: Book, processed: seq<Sample>)
    requires |processed| == env.config.frame && Tracks(a, k)
    requires k.pure ==>
               var skip := Min(a.skip, env.config.frame);
               var count := Min(env.config.frame - skip, |a.raw|);
               processed[skip..skip + count] == a.raw[..count]
    ensures Tracks(EmitProcessed(env, a, processed), k)
  {
    var skip := Min(a.skip, env.config.frame);
    var count := Min(env.config.frame - skip, |a.raw|);
    EmitFields(env, a, processed, skip, count);
    AppendTracks(a, k, count, processed[skip..skip + count], Cleaned);
    hide Holds, PushOutput, EmitProcessed, Min;
  }

  /** Microphone samples for the backend that continue where it was fed up to. */
  ghost predicate Continues(env: Env, a: Adapter, s: Stream, b: nat, capture: seq<Sample>)
  {
    && |capture| == env.config.frame
    && forall i :: 0 <= i < |capture| && s.origin <= b + |Fed(a.history)| + i < s.End() ==>
         capture[i] == s.mic[b + |Fed(a.history)| + i - s.origin]
  }

  // A full frame through a pure delay comes out as the originals it is published over.
  lemma {:induction false} DelayedFrame(env: Env, a: Adapter, s: Stream, b: nat, capture: seq<Sample>, count: nat)
    requires a.end == s.End() && a.emitted + |a.raw| == a.end && s.origin <= a.emitted
    requires a.raw == s.mic[a.emitted - s.origin..]
    requires Follows(env, a, s, b) && Continues(env, a, s, b, capture)
    requires count <= env.config.frame - Min(a.skip, env.config.frame) && count <= |a.raw|
    ensures var skip := Min(a.skip, env.config.frame);
            DelayLine(env, Fed(a.history) + capture)[skip..skip + count] == a.raw[..count]
  {
    var fed := Fed(a.history) + capture;
    var skip := Min(a.skip, env.config.frame);
    assert |DelayLine(env, fed)| == env.config.frame;
    hide *;
    forall j | 0 <= j < count ensures DelayLine(env, fed)[skip + j] == a.raw[j]
    {
      DelayedSample(env, a, s, b, capture, j);
    }
    SameSlice(DelayLine(env, fed), a.raw, skip, count);
  }

  lemma {:induction false} SameSlice(x: seq<Sample>, y: seq<Sample>, from: nat, n: nat)
    requires from + n <= |x| && n <= |y| && forall j :: 0 <= j < n ==> x[from + j] == y[j]
    ensures x[from..from + n] == y[..n]
  {
  }

  lemma {:induction false} DelayLineAt(env: Env, fed: seq<Sample>, i: nat)
    requires env.config.frame <= |fed| && i < env.config.frame && env.config.delay <= |fed| - env.config.frame + i
    ensures DelayLine(env, fed)[i] == fed[|fed| - env.config.frame + i - env.config.delay]
  {
    hide Zeros;
  }

  lemma {:induction false} DelayedSample(env: Env, a: Adapter, s: Stream, b: nat, capture: seq<Sample>, j: nat)
    requires a.end == s.End() && a.emitted + |a.raw| == a.end && s.origin <= a.emitted
    requires a.raw == s.mic[a.emitted - s.origin..]
    requires Follows(env, a, s, b) && Continues(env, a, s, b, capture)
    requires j < env.config.frame - Min(a.skip, env.config.frame) && j < |a.raw|
    ensures DelayLine(env, Fed(a.history) + capture)[Min(a.skip, env.config.frame) + j] == a.raw[j]
  {
    hide Fed, Zeros;
    var before, d := Fed(a.history), env.config.delay;
    var fed := before + capture;
    var at := |before| + Min(a.skip, env.config.frame) + j - d;
    assert 0 <= at < |fed| && b + at == a.emitted + j < s.End();
    assert a.raw[j] == s.mic[b + at - s.origin];
    assert fed[at] == s.mic[b + at - s.origin] by {
      if at < |before| {
        assert fed[at] == before[at];
      } else {
        assert fed[at] == capture[at - |before|];
      }
    }
    hide Follows, Continues;
    DelayLineAt(env, fed, Min(a.skip, env.config.frame) + j);
  }

  // The bookkeeping of one more frame through a delay of d samples.
  lemma {:induction false} LatencyPaid(d: nat, frame: nat, fed: nat, b: nat, end: nat)
    ensures var late, late' := Min(d, fed), Min(d, fed + frame);
            var skip, emitted := d - late, Min(end, b + fed - late);
            var dropped := Min(skip, frame);
            && skip - dropped == d - late'
            && emitted + Min(frame - dropped, end - emitted) == Min(end, b + fed + frame - late')
  {
  }

  lemma {:induction false} AdvanceFollows(env: Env, a: Adapter, s: Stream, b: nat, render: seq<Sample>, capture: seq<Sample>, submitted: nat)
    requires PureDelay(env) && Clocks(a) && a.end == s.End()
    requires Follows(env, a, s, b) && Continues(env, a, s, b, capture)
    requires submitted == Min(a.end, b + |Fed(a.history)| + env.config.frame)
    ensures var r := Advance(env, a, render, capture, submitted);
            !r.failed && Follows(env, r, s, b) && |Fed(r.history)| == |Fed(a.history)| + env.config.frame
  {
    hide Fed, DelayLine, PureDelay, Advance, CallBackend;
    PureAnswer(env, a, render, capture);
    FedGrows(a.history, render, capture);
    LatencyPaid(env.config.delay, env.config.frame, |Fed(a.history)|, b, a.end);
  }

  // One backend call and the publication that follows it.
  lemma {:induction false} AdvanceTracks(env: Env, a: Adapter, k: Book, b: nat, render: seq<Sample>, capture: seq<Sample>, submitted: nat)
    requires Clocks(a) && !a.failed && Tracks(a, k) && a.submitted <= submitted <= a.end
    requires k.pure ==> PureDelay(env) && Follows(env, a, k.streams[a.epoch], b)
    requires k.pure ==> Continues(env, a, k.streams[a.epoch], b, capture)
    ensures Tracks(Advance(env, a, render, capture, submitted), k)
  {
    hide Covers, EmitProcessed, Follows, PureDelay, DelayLine, Fed, CallBackend;
    var (called, answer) := CallBackend(env, a, render, capture);
    if answer.None? {
      FailedCallTracks(env, a, k, render, capture);
    } else {
      if k.pure {
        PureAnswer(env, a, render, capture);
        DelayedFrame(env, a, k.streams[a.epoch], b, capture,
                     Min(env.config.frame - Min(a.skip, env.config.frame), |a.raw|));
      }
      EmitTracks(env, called.(submitted := submitted), k, answer.value);
    }
  }

  /** One more frame, and the log and the delay line are in step again. */
  ghost predicate Keeps(env: Env, a: Adapter, r: Adapter, k: Book, b: nat)
  {
    && a.epoch == r.epoch && a.epoch in k.streams && Tracks(r, k)
    && (k.pure ==>
          && !r.failed && Follows(env, r, k.streams[a.epoch], b)
          && |Fed(r.history)| == |Fed(a.history)| + env.config.frame)
  }

  lemma {:induction false} AdvanceKeeps(env: Env, a: Adapter, k: Book, b: nat, render: seq<Sample>, capture: seq<Sample>, submitted: nat)
    requires Clocks(a) && !a.failed && Tracks(a, k) && a.submitted <= submitted <= a.end
    requires k.pure ==> PureDelay(env) && Follows(env, a, k.streams[a.epoch], b)
    requires k.pure ==> Continues(env, a, k.streams[a.epoch], b, capture)
    requires k.pure ==> submitted == Min(a.end, b + |Fed(a.history)| + env.config.frame)
    ensures Keeps(env, a, Advance(env, a, render, capture, submitted), k, b)
  {
    hide Fed, Covers, PureDelay, Follows, Continues, Advance, CallBackend;
    AdvanceTracks(env, a, k, b, render, capture, submitted);
    if k.pure { AdvanceFollows(env, a, k.streams[a.epoch], b, render, capture, submitted); }
  }

  // The samples the pump hands over are the stream's next ones, then zeros.
  lemma {:induction false} FrameContinues(env: Env, a: Adapter, s: Stream, n: nat, b: nat)
    requires s.End() == a.end && s.origin <= a.emitted <= a.submitted && a.emitted + |a.raw| == a.end
    requires a.raw == s.mic[a.emitted - s.origin..]
    requires b + |Fed(a.history)| == a.submitted
    requires n <= env.config.frame && a.submitted + n <= a.end
    requires n == env.config.frame || a.submitted + n == a.end
    ensures var mic := a.submitted - a.emitted; Continues(env, a, s, b, Padded(env, a.raw[mic..mic + n]))
  {
    hide Fed;
  }

  lemma {:induction false} DropReferenceKeeps(env: Env, a: Adapter, k: Book, b: nat, upTo: nat)
    requires a.refStart + |a.reference| == a.refEnd && Tracks(a, k)
    ensures Tracks(DropReference(a, upTo), k)
    ensures k.pure && Follows(env, a, k.streams[a.epoch], b) ==>
              Follows(env, DropReference(a, upTo), k.streams[a.epoch], b)
  {
    hide Fed, Covers;
  }

  /** What the pump hands over next: the reference, the microphone. */
  ghost function NextFrame(env: Env, a: Adapter, n: nat): (c: Call)
    requires Clocks(a) && a.submitted + n <= a.end && !MissingReferenceFor(a, n)
    ensures c.Process?
  {
    var from, ref := a.submitted - a.emitted, a.submitted - a.refStart;
    Process(Padded(env, a.reference[ref..ref + n]), Padded(env, a.raw[from..from + n]))
  }

  /** The state after the backend call, before the used reference is dropped. */
  ghost function Called(env: Env, a: Adapter, n: nat): Adapter
    requires Clocks(a) && !a.failed && a.submitted + n <= a.end && !MissingReferenceFor(a, n)
  {
    Advance(env, a, NextFrame(env, a, n).render, NextFrame(env, a, n).capture, a.submitted + n)
  }

  lemma {:induction false} PumpFrameIs(env: Env, a: Adapter, n: nat)
    requires env.config.Valid() && Ordered(a) && !a.failed && Aligned(env, a)
    requires 0 < n <= env.config.frame && a.submitted + n <= a.end
    requires n == env.config.frame || a.submitted + n == a.end
    requires !MissingReferenceFor(a, n)
    ensures var next := Called(env, a, n);
            && next.refStart + |next.reference| == next.refEnd
            && PumpFrame(env, a, n) == (if next.failed then next else DropReference(next, next.submitted))
            && |NextFrame(env, a, n).capture| == env.config.frame
  {
    hide Advance;
  }

  lemma {:induction false} NextContinues(env: Env, a: Adapter, k: Book, n: nat, b: nat)
    requires Clocks(a) && Tracks(a, k) && b + |Fed(a.history)| == a.submitted
    requires n <= env.config.frame && a.submitted + n <= a.end && (n == env.config.frame || a.submitted + n == a.end)
    requires !MissingReferenceFor(a, n)
    ensures Continues(env, a, k.streams[a.epoch], b, NextFrame(env, a, n).capture)
  {
    hide Fed, Covers, Continues;
    FrameContinues(env, a, k.streams[a.epoch], n, b);
  }

  lemma {:induction false} FrameTracks(env: Env, a: Adapter, k: Book, n: nat, b: nat)
    requires env.config.Valid() && Ordered(a) && !a.failed && Aligned(env, a)
    requires 0 < n <= env.config.frame && a.submitted + n <= a.end
    requires n == env.config.frame || a.submitted + n == a.end
    requires !MissingReferenceFor(a, n) && Tracks(a, k)
    requires k.pure ==> PureDelay(env) && Follows(env, a, k.streams[a.epoch], b) && b + |Fed(a.history)| == a.submitted
    ensures var r := PumpFrame(env, a, n);
            && Tracks(r, k)
            && (k.pure ==> !r.failed && Follows(env, r, k.streams[a.epoch], b))
            && (k.pure && n == env.config.frame ==> b + |Fed(r.history)| == r.submitted)
  {
    assert a.epoch in k.streams;
    hide Fed, Tracks, PureDelay, Follows, DropReference, PumpFrame, Called;
    PumpFrameIs(env, a, n);
    CalledTracks(env, a, k, n, b);
    var c := Called(env, a, n);
    assert Tracks(c, k) && c.epoch == a.epoch && !c.failed ==> c.submitted == a.submitted + n;
    assert k.pure ==> !c.failed && Follows(env, c, k.streams[a.epoch], b) && |Fed(c.history)| == |Fed(a.history)| + env.config.frame;
    hide *;
    DropReferenceKeeps(env, c, k, b, c.submitted);
  }

  lemma {:induction false} CalledTracks(env: Env, a: Adapter, k: Book, n: nat, b: nat)
    requires Ordered(a) && !a.failed && Tracks(a, k) && n <= env.config.frame && a.submitted + n <= a.end
    requires n == env.config.frame || a.submitted + n == a.end
    requires !MissingReferenceFor(a, n)
    requires k.pure ==> PureDelay(env) && Follows(env, a, k.streams[a.epoch], b) && b + |Fed(a.history)| == a.submitted
    ensures Keeps(env, a, Called(env, a, n), k, b)
    ensures Called(env, a, n).submitted == if Called(env, a, n).failed then a.end else a.submitted + n
  {
    hide Fed, Covers, PureDelay, Follows, Continues, Advance, CallBackend, NextFrame, Keeps;
    var call := NextFrame(env, a, n);
    assert Called(env, a, n) == Advance(env, a, call.render, call.capture, a.submitted + n);
    assert Clocks(a) && a.epoch in k.streams;
    if k.pure {
      assert Min(a.end, b + |Fed(a.history)| + env.config.frame) == a.submitted + n;
      NextContinues(env, a, k, n, b);
    }
    hide *;
    AdvanceKeeps(env, a, k, b, call.render, call.capture, a.submitted + n);
  }

  lemma {:induction false} PumpTracks(env: Env, a: Adapter, k: Book, stopping: bool, b: nat) returns (b': nat)
    requires env.config.Valid() && Ordered(a) && (Aligned(env, a) || (stopping && a.submitted == a.end))
    requires Tracks(a, k)
    requires k.pure ==> PureDelay(env) && Follows(env, a, k.streams[a.epoch], b)
    requires k.pure ==> b + |Fed(a.history)| == a.submitted || (stopping && a.submitted == a.end)
    ensures var r := PumpLoop(env, a, stopping);
            && Tracks(r, k)
            && (k.pure ==> Follows(env, r, k.streams[a.epoch], b'))
            && (k.pure && !stopping ==> b' + |Fed(r.history)| == r.submitted)
    decreases a.end - a.submitted
  {
    hide Fed, Covers, PureDelay, Follows, PumpFrame, Bypass;
    b' := b;
    var s := k.streams[a.epoch];
    var unprocessed := a.end - a.submitted;
    if unprocessed == 0 || (unprocessed < env.config.frame && !stopping) {
    } else {
      var n := Min(unprocessed, env.config.frame);
      if MissingReferenceFor(a, n) {
        if stopping || a.submitted < a.refStart || unprocessed >= env.config.maxWait {
          BypassTracks(env, a, k, MissingReference, true);
          if k.pure {
            BypassFollows(env, a, s, b, MissingReference);
            b' := a.end;
          }
        }
      } else {
        FrameTracks(env, a, k, n, b);
        b' := PumpTracks(env, PumpFrame(env, a, n), k, stopping, b);
      }
    }
  }

  /** Between calls: settled, tracking its streams, and with a pure delay in step. */
  ghost predicate Faithful(env: Env, a: Adapter, k: Book)
  {
    && Settled(env, a)
    && Tracks(a, k)
    && (forall e :: e in k.streams ==> e <= a.epoch)
    && (k.pure ==> PureDelay(env) && !a.failed && (!a.closed ==> InStep(env, a, k.streams[a.epoch])))
  }

  /** The current stream grows at its end. */
  ghost function Grow(k: Book, epoch: nat, samples: seq<Sample>): Book
    requires epoch in k.streams
  {
    k.(streams := k.streams[epoch := k.streams[epoch].(mic := k.streams[epoch].mic + samples)])
  }

  /** A new stream whose part of the log has not begun. */
  ghost function Open(k: Book, epoch: nat, start: nat): Book
  {
    k.(streams := k.streams[epoch := Stream(start, [])], starts := k.starts[epoch := start])
  }

  lemma {:induction false} GrowCovers(out: seq<Output>, k: Book, epoch: nat, emitted: nat, samples: seq<Sample>)
    requires epoch in k.streams && Covers(out, k, epoch, emitted)
    ensures Covers(out, Grow(k, epoch, samples), epoch, emitted)
  {
    var k' := Grow(k, epoch, samples);
    forall i | 0 <= i < |out|
      ensures out[i].epoch in k'.streams && Genuine(k'.streams[out[i].epoch], out[i], k.pure)
    {
      GrowthKeepsGenuine(k.streams[out[i].epoch], k'.streams[out[i].epoch], out[i], k.pure);
    }
    forall e | e in k'.streams ensures TilesStream(out, k', epoch, emitted, e)
    {
      assert TilesStream(out, k, epoch, emitted, e);
    }
  }

  // Accepting samples into the queue: the stream and its tail grow together.
  lemma {:induction false} GrowTracks(a: Adapter, k: Book, x: Sample)
    requires Tracks(a, k)
    ensures Tracks(a.(raw := a.raw + [x], end := a.end + 1), Grow(k, a.epoch, [x]))
  {
    hide Covers;
    GrowCovers(a.out, k, a.epoch, a.emitted, [x]);
  }

  lemma {:induction false} GrowInStep(env: Env, a: Adapter, s: Stream, x: Sample)
    requires InStep(env, a, s) && s.End() == a.end && a.submitted <= a.end
    ensures InStep(env, a.(raw := a.raw + [x], end := a.end + 1), s.(mic := s.mic + [x]))
  {
    hide Fed;
  }

  lemma {:induction false} PumpFaithful(env: Env, a: Adapter, k: Book)
    requires env.config.Valid() && Ordered(a) && Aligned(env, a) && Tracks(a, k)
    requires k.pure ==> PureDelay(env) && !a.failed && InStep(env, a, k.streams[a.epoch])
    ensures var r := Pump(env, a, false);
            Tracks(r, k) && (k.pure ==> !r.failed && InStep(env, r, k.streams[a.epoch]))
  {
    hide Fed, Covers, PureDelay, Bypass, PumpLoop;
    if a.failed {
      BypassTracks(env, a, k, BackendFailed, false);
    } else {
      var b := PumpTracks(env, a, k, false, if k.pure then a.submitted - |Fed(a.history)| else 0);
    }
  }

  lemma {:induction false} PushSampleFaithful(env: Env, a: Adapter, k: Book, x: Sample)
    requires Faithful(env, a, k) && !a.closed
    ensures Faithful(env, PushSample(env, a, x), Grow(k, a.epoch, [x]))
  {
    hide Fed, Covers, PureDelay, Pump, InStep;
    var queued := a.(raw := a.raw + [x], end := a.end + 1);
    var k' := Grow(k, a.epoch, [x]);
    GrowTracks(a, k, x);
    if k.pure { GrowInStep(env, a, k.streams[a.epoch], x); }
    if a.failed {
      var passed := queued.(submitted := a.end + 1, stats := a.stats.(raw := a.stats.raw + 1));
      AppendTracks(passed, k', 1, [x], Raw(BackendFailed));
      assert passed.(raw := passed.raw[1..]) == a.(end := a.end + 1, submitted := a.end + 1, stats := passed.stats);
    } else {
      PumpFaithful(env, queued, k');
    }
  }

  lemma {:induction false} GrowTwice(k: Book, epoch: nat, x: seq<Sample>, y: seq<Sample>)
    requires epoch in k.streams
    ensures Grow(k, epoch, []) == k
    ensures Grow(Grow(k, epoch, x), epoch, y) == Grow(k, epoch, x + y)
  {
    var mic := k.streams[epoch].mic;
    assert mic + [] == mic && (mic + x) + y == mic + (x + y);
    assert k.streams[epoch := k.streams[epoch]] == k.streams;
  }

  lemma {:induction false} FaithfulHas(env: Env, a: Adapter, k: Book)
    requires Faithful(env, a, k) && !a.closed
    ensures Settled(env, a) && a.epoch in k.streams
  {
  }

  lemma {:induction false} PushAnotherFaithful(env: Env, a: Adapter, k: Book, before: seq<Sample>, x: Sample)
    requires a.epoch in k.streams && Faithful(env, a, Grow(k, a.epoch, before)) && !a.closed
    ensures Faithful(env, PushSample(env, a, x), Grow(k, a.epoch, before + [x]))
  {
    hide *;
    PushSampleFaithful(env, a, Grow(k, a.epoch, before), x);
    GrowTwice(k, a.epoch, before, [x]);
  }

  lemma {:induction false} PushSamplesFaithful(env: Env, a: Adapter, k: Book, xs: seq<Sample>)
    requires Faithful(env, a, k) && !a.closed
    ensures Faithful(env, PushSamples(env, a, xs), Grow(k, a.epoch, xs))
    decreases |xs|
  {
    hide *;
    FaithfulHas(env, a, k);
    PushSamplesLast(env, a, xs);
    if xs == [] {
      GrowTwice(k, a.epoch, [], []);
    } else {
      var init, last := xs[..|xs| - 1], xs[|xs| - 1];
      var mid := PushSamples(env, a, init);
      assert init + [last] == xs;
      PushSamplesFaithful(env, a, k, init);
      PushAnotherFaithful(env, mid, k, init, last);
    }
  }

  lemma {:induction false} PushReferenceSampleFaithful(env: Env, a: Adapter, k: Book, x: Sample)
    requires Faithful(env, a, k) && !a.closed
    ensures Faithful(env, PushReferenceSample(env, a, x), k)
  {
    hide Fed, Covers, PureDelay, Pump;
    var drop := if |a.reference| >= env.config.maxReference then |a.reference| - env.config.maxReference + 1 else 0;
    PumpFaithful(env, a.(reference := a.reference[drop..] + [x], refStart := a.refStart + drop, refEnd := a.refEnd + 1), k);
  }

  lemma {:induction false} PushReferenceFaithful(env: Env, a: Adapter, k: Book, xs: seq<Sample>)
    requires Faithful(env, a, k) && !a.closed
    ensures Faithful(env, PushReference(env, a, xs), k)
    decreases |xs|
  {
    hide Fed, Covers, PureDelay, PushReferenceSample;
    if xs != [] && !a.failed {
      PushReferenceSampleFaithful(env, a, k, xs[0]);
      PushReferenceFaithful(env, PushReferenceSample(env, a, xs[0]), k, xs[1..]);
    }
  }

  lemma {:induction false} PushRenderFaithful(env: Env, a: Adapter, k: Book, epoch: nat, start: nat, xs: seq<Sample>)
    requires Faithful(env, a, k) && PushRender(env, a, epoch, start, xs).Accepted?
    ensures Faithful(env, PushRender(env, a, epoch, start, xs).adapter, k)
  {
    hide Fed, Covers, PureDelay, PushReference;
    if xs != [] {
      if a.refEnd < start {
        PushReferenceFaithful(env, a.(reference := [], refStart := start, refEnd := start), k, xs);
      } else {
        PushReferenceFaithful(env, a, k, xs);
      }
    }
  }

  lemma {:induction false} FlushWaitFaithful(env: Env, a: Adapter, k: Book)
    requires Faithful(env, a, k)
    ensures Faithful(env, FlushReferenceWait(env, a), k)
  {
    hide Fed, Covers, PureDelay, Bypass;
    BypassTracks(env, a, k, MissingReference, true);
    if k.pure && !a.closed {
      BypassFollows(env, a, k.streams[a.epoch], a.submitted - |Fed(a.history)|, MissingReference);
    }
  }

  ghost function FlushFrame(env: Env, a: Adapter): Adapter
    requires Ordered(a) && !a.failed && a.submitted == a.end
  {
    Advance(env, a, Zeros(env.config.frame), Zeros(env.config.frame), a.end)
  }

  /** Everything is handed over, and the log and the delay line are in order. */
  ghost predicate Flushing(env: Env, a: Adapter, k: Book, b: nat)
  {
    && env.config.Valid() && Ordered(a) && a.submitted == a.end && Tracks(a, k)
    && (k.pure ==> PureDelay(env) && Follows(env, a, k.streams[a.epoch], b))
  }

  lemma {:induction false} FlushFrameKeeps(env: Env, a: Adapter, k: Book, b: nat)
    requires Flushing(env, a, k, b) && !a.failed
    ensures Flushing(env, FlushFrame(env, a), k, b)
  {
    var zeros := Zeros(env.config.frame);
    assert k.pure ==> Continues(env, a, k.streams[a.epoch], b, zeros);
    assert k.pure ==> a.end <= b + |Fed(a.history)|;
    hide Fed, PureDelay, Follows, Advance, CallBackend, Zeros, Continues, Covers;
    AdvanceKeeps(env, a, k, b, zeros, zeros, a.end);
  }

  lemma {:induction false} FlushTracks(env: Env, a: Adapter, k: Book, frames: nat, b: nat)
    requires Flushing(env, a, k, b)
    ensures Flushing(env, Flush(env, a, frames), k, b)
    decreases frames
  {
    hide Tracks, PureDelay, Follows, Advance, CallBackend, Zeros;
    if frames != 0 && a.raw != [] && !a.failed {
      FlushFrameKeeps(env, a, k, b);
      FlushTracks(env, FlushFrame(env, a), k, frames - 1, b);
    }
  }

  lemma {:induction false} DrainedTracks(env: Env, a: Adapter, k: Book)
    requires Faithful(env, a, k) && !a.closed
    ensures Tracks(Drained(env, a), k) && (k.pure ==> !Drained(env, a).failed)
  {
    hide Fed, Covers, PureDelay, Bypass, PumpLoop, Flush;
    var b := 0;
    if a.failed {
      BypassTracks(env, a, k, BackendFailed, false);
    } else {
      b := PumpTracks(env, a, k, true, if k.pure then a.submitted - |Fed(a.history)| else 0);
    }
    FlushTracks(env, Pump(env, a, true), k, FlushFrames(env), b);
  }

  lemma {:induction false} FinishFaithful(env: Env, a: Adapter, k: Book)
    requires Faithful(env, a, k)
    ensures Faithful(env, Finish(env, a), k)
  {
    hide Fed, Covers, PureDelay, Bypass, Drained, InStep;
    if !a.closed {
      var drained := Drained(env, a);
      DrainedTracks(env, a, k);
      if drained.raw != [] { BypassTracks(env, drained, k, BackendFailed, false); }
    }
  }

  lemma {:induction false} TilesAbsent(out: seq<Output>, e: nat, at: nat)
    requires forall i :: 0 <= i < |out| ==> out[i].epoch != e
    ensures Tiles(out, e, at, at)
  {
    if out != [] { TilesAbsent(out[..|out| - 1], e, at); }
  }

  // A new epoch starts with nothing published; the old one is then complete.
  lemma {:induction false} OpenCovers(out: seq<Output>, k: Book, epoch: nat, start: nat, old_epoch: nat)
    requires old_epoch in k.streams && epoch !in k.streams
    requires Covers(out, k, old_epoch, k.streams[old_epoch].End())
    ensures Covers(out, Open(k, epoch, start), epoch, start)
  {
    var k' := Open(k, epoch, start);
    forall e | e in k'.streams ensures TilesStream(out, k', epoch, start, e)
    {
      if e == epoch { TilesAbsent(out, e, start); } else { assert TilesStream(out, k, old_epoch, k.streams[old_epoch].End(), e); }
    }
  }

  lemma {:induction false} ResetFaithful(env: Env, a: Adapter, k: Book, epoch: nat, start: nat)
    requires Faithful(env, a, k) && a.epoch < epoch
    ensures Faithful(env, Reset(env, a, epoch, start).adapter, Open(k, epoch, start))
  {
    hide Covers, Bypass;
    var released := Bypass(env, a, RouteReset, false);
    BypassTracks(env, a, k, RouteReset, false);
    OpenCovers(released.out, k, epoch, start, a.epoch);
    var r := Reset(env, a, epoch, start).adapter;
    if k.pure { assert Fed(r.history) == []; }
  }

  /** One call of the adapter's interface. */
  datatype Op =
    | Render(epoch: nat, start: nat, samples: seq<Sample>)
    | Capture(epoch: nat, start: nat, samples: seq<Sample>)
    | FlushWait
    | Stop
    | Restart(epoch: nat, start: nat)

  /** The adapter, and the microphone audio it has accepted so far. */
  datatype World = World(adapter: Adapter, book: Book)

  ghost predicate WorldOk(env: Env, w: World)
  {
    && Faithful(env, w.adapter, w.book)
    && forall e {:trigger w.book.starts[e]} :: e in w.book.streams ==> w.book.starts[e] == w.book.streams[e].origin
  }

  /** A refused call changes nothing. */
  ghost function Step(env: Env, w: World, op: Op): World
    requires WorldOk(env, w)
  {
    var a := w.adapter;
    match op
    case Render(epoch, start, samples) =>
      var r := PushRender(env, a, epoch, start, samples);
      if r.Accepted? then w.(adapter := r.adapter) else w
    case Capture(epoch, start, samples) =>
      var r := PushCapture(env, a, epoch, start, samples);
      if r.Accepted? then World(r.adapter, Grow(w.book, epoch, samples)) else w
    case FlushWait => w.(adapter := FlushReferenceWait(env, a))
    case Stop => w.(adapter := Finish(env, a))
    case Restart(epoch, start) =>
      var r := Reset(env, a, epoch, start);
      if r.Accepted? then World(r.adapter, Open(w.book, epoch, start)) else w
  }

  lemma {:induction false} StepKeeps(env: Env, w: World, op: Op)
    requires WorldOk(env, w)
    ensures WorldOk(env, Step(env, w, op)) && Step(env, w, op).book.pure == w.book.pure
  {
    assert Settled(env, w.adapter) && w.adapter.epoch in w.book.streams;
    hide Faithful, Settled, PushReference, PushSamples, PushRender, PushCapture, FlushReferenceWait, Finish, Reset;
    match op
    case Render(epoch, start, samples) =>
      if PushRender(env, w.adapter, epoch, start, samples).Accepted? {
        PushRenderFaithful(env, w.adapter, w.book, epoch, start, samples);
      }
    case Capture(epoch, start, samples) =>
      if PushCapture(env, w.adapter, epoch, start, samples).Accepted? {
        CaptureFaithful(env, w.adapter, w.book, epoch, start, samples);
      }
    case FlushWait => FlushWaitFaithful(env, w.adapter, w.book);
    case Stop => FinishFaithful(env, w.adapter, w.book);
    case Restart(epoch, start) =>
      if w.adapter.epoch < epoch { ResetFaithful(env, w.adapter, w.book, epoch, start); }
  }

  lemma {:induction false} CaptureFaithful(env: Env, a: Adapter, k: Book, epoch: nat, start: nat, xs: seq<Sample>)
    requires Faithful(env, a, k) && PushCapture(env, a, epoch, start, xs).Accepted?
    ensures epoch == a.epoch && Faithful(env, PushCapture(env, a, epoch, start, xs).adapter, Grow(k, epoch, xs))
  {
    hide PushSamples, Grow;
    PushSamplesFaithful(env, a, k, xs);
  }

  lemma {:induction false} NewFaithful(env: Env, epoch: nat, start: nat, pure: bool)
    requires env.config.Valid() && (pure ==> PureDelay(env))
    ensures WorldOk(env, World(New(env, epoch, start), Open(Book(map[], map[], pure), epoch, start)))
  {
    var k := Open(Book(map[], map[], pure), epoch, start);
    assert TilesStream([], k, epoch, start, epoch);
  }

  /** Any sequence of calls to a new adapter. */
  ghost function Run(env: Env, epoch: nat, start: nat, pure: bool, ops: seq<Op>): (w: World)
    requires env.config.Valid() && (pure ==> PureDelay(env))
    ensures WorldOk(env, w) && w.book.pure == pure
    decreases |ops|
  {
    if ops == [] then
      NewFaithful(env, epoch, start, pure);
      World(New(env, epoch, start), Open(Book(map[], map[], pure), epoch, start))
    else
      var w := Run(env, epoch, start, pure, ops[..|ops| - 1]);
      StepKeeps(env, w, ops[|ops| - 1]);
      Step(env, w, ops[|ops| - 1])
  }

  /** After any calls, the outputs tile what was accepted in every epoch up to
      the queue, raw intervals are the originals, and the queues are bounded;
      with a pure-delay backend every cleaned sample is the original too. */
  lemma {:induction false} OutputsTileEveryEpoch(env: Env, epoch: nat, start: nat, pure: bool, ops: seq<Op>)
    requires env.config.Valid() && (pure ==> PureDelay(env))
    ensures var w := Run(env, epoch, start, pure, ops);
            var a, streams := w.adapter, w.book.streams;
            && a.epoch in streams
            && a.raw == streams[a.epoch].mic[a.emitted - streams[a.epoch].origin..]
            && (forall e :: e in streams ==>
                  Tiles(a.out, e, streams[e].origin, if e == a.epoch then a.emitted else streams[e].End()))
            && (forall i :: 0 <= i < |a.out| ==>
                  && a.out[i].epoch in streams
                  && (a.out[i].kind.Raw? || pure ==> Matches(streams[a.out[i].epoch], a.out[i].start, a.out[i].samples)))
            && |a.raw| <= env.config.delay + env.config.maxWait
            && |a.reference| <= env.config.maxReference
  {
    hide Tiles, Matches;
    var w := Run(env, epoch, start, pure, ops);
    var a, streams := w.adapter, w.book.streams;
    forall e | e in streams
      ensures Tiles(a.out, e, streams[e].origin, if e == a.epoch then a.emitted else streams[e].End())
    {
      assert TilesStream(a.out, w.book, a.epoch, a.emitted, e) && w.book.starts[e] == streams[e].origin;
    }
  }

  // Flushing shrinks what is queued plus what is still latency by a frame at a time.
  lemma {:induction false} FlushDrains(env: Env, a: Adapter, frames: nat)
    requires env.config.Valid() && NeverFails(env) && Ordered(a) && a.submitted == a.end && !a.failed
    requires a.raw == [] || |a.raw| + a.skip <= frames * env.config.frame
    ensures Flush(env, a, frames).raw == [] && !Flush(env, a, frames).failed
    decreases frames
  {
    if frames != 0 && a.raw != [] {
      var next := FlushFrame(env, a);
      assert IsFrameCall(env, a.history + [Process(Zeros(env.config.frame), Zeros(env.config.frame))]);
      assert frames * env.config.frame == (frames - 1) * env.config.frame + env.config.frame;
      FlushDrains(env, next, frames - 1);
    }
  }

  // Once everything is handed over, no more than the delay is still held.
  lemma {:induction false} PumpHoldsDelay(env: Env, a: Adapter)
    requires env.config.Valid() && NeverFails(env) && Ordered(a) && !a.failed
    requires Aligned(env, a) || (a.submitted == a.end && |a.raw| + a.skip <= env.config.delay)
    ensures var r := PumpLoop(env, a, true);
            !r.failed && (r.raw == [] || |r.raw| + r.skip <= env.config.delay)
    decreases a.end - a.submitted
  {
    hide PumpFrame, Bypass, NeverFails, PumpLoop, MissingReferenceFor;
    StoppingPump(env, a);
    var unprocessed := a.end - a.submitted;
    if unprocessed != 0 {
      var n := Min(unprocessed, env.config.frame);
      if MissingReferenceFor(a, n) {
        BypassNeverFails(env, a);
      } else {
        FrameNeverFails(env, a, n);
        PumpHoldsDelay(env, PumpFrame(env, a, n));
      }
    }
  }

  // One turn of the loop once the stream is stopping.
  lemma {:induction false} StoppingPump(env: Env, a: Adapter)
    requires env.config.Valid() && Ordered(a) && !a.failed && (Aligned(env, a) || a.submitted == a.end)
    ensures var n := Min(a.end - a.submitted, env.config.frame);
            PumpLoop(env, a, true)
            == if n == 0 then a
               else if MissingReferenceFor(a, n) then Bypass(env, a, MissingReference, true)
               else PumpLoop(env, PumpFrame(env, a, n), true)
  {
    hide PumpFrame, Bypass;
  }

  lemma {:induction false} BypassNeverFails(env: Env, a: Adapter)
    requires NeverFails(env) && Clocks(a) && !a.failed
    ensures !Bypass(env, a, MissingReference, true).failed
  {
  }

  lemma {:induction false} FrameAnswered(env: Env, a: Adapter, render: seq<Sample>, capture: seq<Sample>)
    requires Clocks(a) && !a.failed && NeverFails(env) && |capture| == env.config.frame
    ensures CallBackend(env, a, render, capture).1.Some?
  {
    assert IsFrameCall(env, a.history + [Process(render, capture)]);
  }

  lemma {:induction false} FrameNeverFails(env: Env, a: Adapter, n: nat)
    requires env.config.Valid() && NeverFails(env) && Ordered(a) && !a.failed && Aligned(env, a)
    requires 0 < n <= env.config.frame && a.submitted + n <= a.end
    requires n == env.config.frame || a.submitted + n == a.end
    requires !MissingReferenceFor(a, n)
    ensures var r := PumpFrame(env, a, n);
            !r.failed && (a.submitted + n == a.end ==> |r.raw| + r.skip <= env.config.delay)
  {
    hide NeverFails, NextFrame, EmitProcessed, CallBackend, PumpFrame, Advance;
    PumpFrameIs(env, a, n);
    FrameAnswered(env, a, NextFrame(env, a, n).render, NextFrame(env, a, n).capture);
  }

  /** With a backend that never fails, the padded flush empties the queue, so the
      last bypass in `Finish` never happens and nothing is published raw by it. */
  lemma {:induction false} FinishDrainsItself(env: Env, a: Adapter)
    requires Settled(env, a) && NeverFails(env) && !a.closed && !a.failed
    ensures Drained(env, a).raw == []
  {
    CeilingCovers(env.config.delay, env.config.frame);
    assert env.config.delay <= FlushFrames(env) * env.config.frame;
    hide FlushFrames, NeverFails, PumpLoop, Flush;
    PumpHoldsDelay(env, a);
    FlushDrains(env, Pump(env, a, true), FlushFrames(env));
  }

  lemma {:induction false} CeilingCovers(d: nat, f: nat)
    requires 0 < f
    ensures d <= ((d + f - 1) / f + 1) * f
  {
    var q, r := (d + f - 1) / f, (d + f - 1) % f;
    assert (q + 1) * f == q * f + f;
  }
}
