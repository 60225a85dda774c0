/** Detecting a tap that died without saying so: the watchdog's clocks against
    the history of polls since it was armed. */
module CaptureWatchdog {
  import opened Outcomes

  datatype Config = Config(
    noBufferTimeout: nat, silenceTimeout: nat, quietNoticeAfter: nat, emitsSilenceWhenIdle: bool)

  /** Running totals of what the tap delivered. */
  datatype Activity = Activity(buffers: nat, silent: nat, frames: nat)

  datatype OutputActivity = Active | Idle | Unknown

  datatype Fault =
    | NoBuffers(since: nat, lasted: nat)
    | SilentWhileOutputRunning(silentSince: nat, corroborated: nat)

  datatype Verdict = Healthy | NoAudio(lasted: nat) | Faulted(fault: Fault)

  datatype Poll = Poll(now: nat, activity: Activity, output: OutputActivity)

  /** Everything observed since the last arm. */
  datatype Watch = Watch(armed: nat, polls: seq<Poll>) {
    predicate Timed()
    {
      && (forall i :: 0 <= i < |polls| ==> armed <= polls[i].now)
      && (forall i, j :: 0 <= i < j < |polls| ==> polls[i].now <= polls[j].now)
    }

    /** The moment before poll k: the previous poll, or the arm. */
    function Moment(k: nat): nat
      requires k <= |polls|
    {
      if k == 0 then armed else polls[k - 1].now
    }

    function Prefix(n: nat): Watch
      requires n <= |polls|
    {
      Watch(armed, polls[..n])
    }
  }

  function Max(x: nat, y: nat): nat { if x < y then y else x }

  function Less(x: nat, y: nat): nat { if x < y then 0 else x - y }

  // ---------------------------------------------------------------- what a poll shows

  /** The counters went backwards at poll i: another tap's totals. */
  predicate Backward(w: Watch, i: nat)
    requires 1 <= i < |w.polls|
  {
    var was, is_ := w.polls[i - 1].activity, w.polls[i].activity;
    is_.frames < was.frames || is_.buffers < was.buffers
  }

  /** New buffers arrived by poll i, all of them silent. */
  predicate Quieted(w: Watch, i: nat)
    requires 1 <= i < |w.polls|
  {
    var was, is_ := w.polls[i - 1].activity, w.polls[i].activity;
    && !Backward(w, i) && was.buffers < is_.buffers
    && Less(is_.silent, was.silent) == is_.buffers - was.buffers
  }

  /** New buffers arrived by poll i, not all of them silent. */
  predicate Heard(w: Watch, i: nat)
    requires 1 <= i < |w.polls|
  {
    var was, is_ := w.polls[i - 1].activity, w.polls[i].activity;
    && !Backward(w, i) && was.buffers < is_.buffers
    && Less(is_.silent, was.silent) != is_.buffers - was.buffers
  }

  predicate Advanced(w: Watch, i: nat)
    requires 1 <= i < |w.polls|
  {
    w.polls[i - 1].activity.frames < w.polls[i].activity.frames
  }

  // ---------------------------------------------------------------- the clocks, poll by poll

  /** When frames last advanced, over the first n polls. */
  function LastFrames(w: Watch, n: nat): nat
    requires n <= |w.polls|
  {
    if n <= 1 then w.armed
    else if Backward(w, n - 1) || Advanced(w, n - 1) then w.polls[n - 1].now
    else LastFrames(w, n - 1)
  }

  function StarvedFor(w: Watch, n: nat): nat
    requires 1 <= n <= |w.polls|
  {
    Less(w.polls[n - 1].now, Max(LastFrames(w, n), w.armed))
  }

  function Starvation(c: Config, w: Watch, n: nat): Verdict
    requires 1 <= n <= |w.polls|
  {
    var lasted := StarvedFor(w, n);
    if lasted < c.noBufferTimeout then Healthy
    else if !c.emitsSilenceWhenIdle && w.polls[n - 1].output != Active then NoAudio(lasted)
    else Faulted(NoBuffers(Max(LastFrames(w, n), w.armed), lasted))
  }

  predicate Starved(c: Config, w: Watch, n: nat)
    requires 1 <= n <= |w.polls|
  {
    Starvation(c, w, n).Faulted? && (n == 1 || !Backward(w, n - 1))
  }

  /** The poll that opened the current run of silence, or 0. */
  function QuietFrom(w: Watch, n: nat): (k: nat)
    requires n <= |w.polls|
    ensures k == 0 || k < n
  {
    if n <= 1 || Backward(w, n - 1) || Heard(w, n - 1) then 0
    else if QuietFrom(w, n - 1) > 0 then QuietFrom(w, n - 1)
    else if Quieted(w, n - 1) then n - 1
    else 0
  }

  /** The poll that opened the current corroborated run, or 0. */
  function CorroboratedFrom(c: Config, w: Watch, n: nat): (k: nat)
    requires n <= |w.polls|
    ensures k == 0 || k < n
  {
    if n <= 1 || Backward(w, n - 1) || Heard(w, n - 1) then 0
    else if Starved(c, w, n) then CorroboratedFrom(c, w, n - 1)
    else if QuietFrom(w, n) == 0 || w.polls[n - 1].output != Active then 0
    else if CorroboratedFrom(c, w, n - 1) > 0 then CorroboratedFrom(c, w, n - 1)
    else n - 1
  }

  predicate Audible(w: Watch, n: nat)
    requires n <= |w.polls|
  {
    exists i :: 1 <= i < n && Heard(w, i)
  }

  function Observed(c: Config, w: Watch): Verdict
    requires w.polls != [] && w.Timed()
  {
    var n := |w.polls|;
    var now := w.polls[n - 1].now;
    if n == 1 then Starvation(c, w, 1)
    else if Backward(w, n - 1) then Healthy
    else if Starved(c, w, n) then Starvation(c, w, n)
    else
      var q, k := QuietFrom(w, n), CorroboratedFrom(c, w, n);
      if q == 0 then Healthy
      else if k > 0 && now - w.Moment(k) >= c.silenceTimeout then
        Faulted(SilentWhileOutputRunning(w.Moment(q), now - w.Moment(k)))
      else if now - w.Moment(q) >= c.quietNoticeAfter then NoAudio(now - w.Moment(q))
      else Healthy
  }

  // ---------------------------------------------------------------- what the clocks mean

  /** Silence opened at poll q and nothing audible came since. */
  ghost predicate QuietRun(w: Watch, q: nat, n: nat)
    requires n <= |w.polls|
  {
    && 1 <= q < n && Quieted(w, q)
    && forall i :: q <= i < n ==> !Backward(w, i) && !Heard(w, i)
  }

  lemma {:induction false} QuietFromMeans(w: Watch, n: nat)
    requires n <= |w.polls|
    ensures QuietFrom(w, n) > 0 ==> QuietRun(w, QuietFrom(w, n), n)
    ensures forall q: nat :: QuietRun(w, q, n) ==> 0 < QuietFrom(w, n) <= q
  {
    if n > 1 {
      QuietFromMeans(w, n - 1);
      forall q: nat | QuietRun(w, q, n) ensures 0 < QuietFrom(w, n) <= q {
        if q < n - 1 { assert QuietRun(w, q, n - 1); }
      }
    }
  }

  /** From poll k on: quiet throughout, output seen active at every poll that
      was not itself a starvation fault. */
  ghost predicate CorroboratedRun(c: Config, w: Watch, k: nat, n: nat)
    requires n <= |w.polls|
  {
    && 1 <= k < n
    && QuietFrom(w, k + 1) > 0 && !Starved(c, w, k + 1) && w.polls[k].output == Active
    && forall i :: k <= i < n ==>
         !Backward(w, i) && !Heard(w, i) && (w.polls[i].output == Active || Starved(c, w, i + 1))
  }

  lemma {:induction false} QuietPersists(w: Watch, k: nat, n: nat)
    requires k < n <= |w.polls| && 1 <= k && QuietFrom(w, k + 1) > 0
    requires forall i :: k <= i < n ==> !Backward(w, i) && !Heard(w, i)
    ensures QuietFrom(w, n) == QuietFrom(w, k + 1)
  {
    if k + 1 < n { QuietPersists(w, k, n - 1); }
  }

  lemma {:induction false} CorroboratedFromMeans(c: Config, w: Watch, n: nat)
    requires n <= |w.polls|
    ensures CorroboratedFrom(c, w, n) > 0 ==> CorroboratedRun(c, w, CorroboratedFrom(c, w, n), n)
    ensures forall k: nat :: CorroboratedRun(c, w, k, n) ==> 0 < CorroboratedFrom(c, w, n) <= k
  {
    if n > 1 {
      CorroboratedFromMeans(c, w, n - 1);
      forall k: nat | CorroboratedRun(c, w, k, n) ensures 0 < CorroboratedFrom(c, w, n) <= k {
        assert !Backward(w, n - 1) && !Heard(w, n - 1);
        QuietPersists(w, k, n);
        if k < n - 1 { assert CorroboratedRun(c, w, k, n - 1); }
      }
    }
  }

  /** A silence fault is reported exactly when the tap is not starving and has
      been quiet, with output seen active, for the whole timeout. */
  lemma {:induction false} SilenceFaultIff(c: Config, w: Watch)
    requires w.Timed() && w.polls != []
    ensures var n := |w.polls|;
            Observed(c, w).Faulted? && Observed(c, w).fault.SilentWhileOutputRunning? <==>
              && !Starved(c, w, n)
              && exists k: nat :: CorroboratedRun(c, w, k, n) && w.polls[n - 1].now - w.Moment(k) >= c.silenceTimeout
  {
    var n := |w.polls|;
    if n > 1 && !Backward(w, n - 1) && !Starved(c, w, n) {
      CorroboratedFromMeans(c, w, n);
      var first := CorroboratedFrom(c, w, n);
      hide Starved, Heard, Quieted, Starvation;
      forall k: nat | CorroboratedRun(c, w, k, n) ensures QuietFrom(w, n) > 0 && w.Moment(first) <= w.Moment(k) {
        QuietPersists(w, k, n);
      }
    }
  }

  ghost predicate SilenceFault(c: Config, w: Watch)
  {
    w.Timed() && w.polls != [] && Observed(c, w).Faulted? && Observed(c, w).fault.SilentWhileOutputRunning?
  }

  ghost predicate ReportedStarving(c: Config, w: Watch)
  {
    w.Timed() && w.polls != [] && Observed(c, w).Faulted? && Observed(c, w).fault.NoBuffers?
  }

  /** Output was seen active at every poll of the corroborated run. */
  ghost predicate ActiveThroughout(c: Config, w: Watch)
  {
    forall i :: CorroboratedFrom(c, w, |w.polls|) <= i < |w.polls| ==> w.polls[i].output == Active
  }

  /** A silence fault starts where the last audible buffer ended and spans the
      timeout. Output was active throughout exactly when every starvation fault
      reported during the run had found output active. */
  lemma {:induction false} SilenceFaultIsUnbroken(c: Config, w: Watch)
    requires SilenceFault(c, w)
    ensures var n, k := |w.polls|, CorroboratedFrom(c, w, |w.polls|);
            var fault := Observed(c, w).fault;
            && 0 < k < n && fault.corroborated == w.polls[n - 1].now - w.Moment(k) >= c.silenceTimeout
            && (exists q: nat :: QuietRun(w, q, n) && q <= k && fault.silentSince == w.Moment(q))
    ensures var k := CorroboratedFrom(c, w, |w.polls|);
            ActiveThroughout(c, w) <==>
              forall m :: k < m < |w.polls| && ReportedStarving(c, w.Prefix(m)) ==> w.polls[m - 1].output == Active
  {
    var n := |w.polls|;
    var q, k := SilenceFaultRuns(c, w);
    hide Observed, Starved, QuietRun, CorroboratedFrom;
    forall i | k <= i < n && w.polls[i].output != Active
      ensures i + 1 < n && ReportedStarving(c, w.Prefix(i + 1))
    {
      PrefixStarved(c, w, i + 1);
    }
  }

  /** Whatever happened since arming, output was active throughout the run of
      every silence fault exactly when the tap stays silent on an idle output, or
      is reported starving at once. */
  lemma {:induction false} SilenceIsAlwaysCorroborated(c: Config)
    ensures (forall w :: SilenceFault(c, w) ==> ActiveThroughout(c, w))
            <==> !c.emitsSilenceWhenIdle || c.noBufferTimeout == 0
  {
    if !c.emitsSilenceWhenIdle || c.noBufferTimeout == 0 {
      forall w | SilenceFault(c, w)
        ensures ActiveThroughout(c, w)
      {
        var _, k := SilenceFaultRuns(c, w);
      }
    } else {
      var w := RunCanSpanAStarvationFault(c);
    }
  }

  /** The runs behind a silence fault. */
  lemma {:induction false} SilenceFaultRuns(c: Config, w: Watch) returns (q: nat, k: nat)
    requires w.Timed() && w.polls != []
    requires Observed(c, w).Faulted? && Observed(c, w).fault.SilentWhileOutputRunning?
    ensures var n := |w.polls|;
            && QuietRun(w, q, n) && q <= k < n && !Starved(c, w, n) && k == CorroboratedFrom(c, w, n)
            && Observed(c, w).fault == SilentWhileOutputRunning(w.Moment(q), w.polls[n - 1].now - w.Moment(k))
            && w.polls[n - 1].now - w.Moment(k) >= c.silenceTimeout
            && forall i :: k <= i < n ==> w.polls[i].output == Active || Starved(c, w, i + 1)
  {
    var n := |w.polls|;
    q, k := QuietFrom(w, n), CorroboratedFrom(c, w, n);
    assert k > 0 && q > 0 && !Starved(c, w, n);
    QuietFromMeans(w, n);
    CorroboratedFromMeans(c, w, n);
    hide Starved, Starvation, Heard, Backward, Quieted, QuietFrom, CorroboratedFrom, LastFrames;
    QuietPersists(w, k, n);
    assert QuietFrom(w, k + 1) <= k;
  }

  lemma {:induction false} PrefixFrames(w: Watch, m: nat, n: nat)
    requires n <= m <= |w.polls|
    ensures LastFrames(w.Prefix(m), n) == LastFrames(w, n)
  {
    if n > 1 {
      PrefixFrames(w, m, n - 1);
      assert w.Prefix(m).polls[n - 1] == w.polls[n - 1] && w.Prefix(m).polls[n - 2] == w.polls[n - 2];
    }
  }

  lemma {:induction false} PrefixStarved(c: Config, w: Watch, m: nat)
    requires w.Timed() && 1 <= m <= |w.polls| && Starved(c, w, m)
    ensures ReportedStarving(c, w.Prefix(m))
  {
    PrefixFrames(w, m, m);
    assert w.Prefix(m).polls[m - 1] == w.polls[m - 1];
    assert m > 1 ==> w.Prefix(m).polls[m - 2] == w.polls[m - 2];
  }

  /** A fault that was not acted on stays in the run: after a starvation fault
      with output idle, the same run can still end in a silence fault. */
  lemma {:induction false} RunCanSpanAStarvationFault(c: Config) returns (w: Watch)
    requires c.emitsSilenceWhenIdle && c.noBufferTimeout > 0
    ensures SilenceFault(c, w) && !ActiveThroughout(c, w)
  {
    var t := Max(c.noBufferTimeout, c.silenceTimeout);
    w := Watch(0, [
      Poll(0, Activity(1, 1, 1), Active), Poll(0, Activity(2, 2, 2), Active),
      Poll(t, Activity(2, 2, 2), Idle), Poll(t, Activity(3, 3, 3), Active)]);
    assert Quieted(w, 1) && QuietFrom(w, 2) == 1 && CorroboratedFrom(c, w, 2) == 1;
    assert LastFrames(w, 2) == 0 && LastFrames(w, 3) == 0 && Starved(c, w, 3);
    assert QuietFrom(w, 3) == 1 && CorroboratedFrom(c, w, 3) == 1;
    assert LastFrames(w, 4) == t && QuietFrom(w, 4) == 1 && CorroboratedFrom(c, w, 4) == 1;
    assert w.Timed() && w.polls[2].output == Idle;
  }

  /** No poll so far reported a fault. */
  ghost predicate FaultFree(c: Config, w: Watch)
  {
    forall m :: 1 <= m <= |w.polls| ==> !ReportedStarving(c, w.Prefix(m)) && !SilenceFault(c, w.Prefix(m))
  }

  lemma {:induction false} NothingReported(c: Config, armed: nat)
    ensures FaultFree(c, Watch(armed, []))
  {
  }

  lemma {:induction false} FaultFreeGrows(c: Config, w: Watch, p: Poll)
    requires FaultFree(c, w) && After(w, p).Timed() && !Observed(c, After(w, p)).Faulted?
    ensures FaultFree(c, After(w, p))
  {
    hide Observed;
    var longer := After(w, p);
    forall m | 1 <= m <= |longer.polls| ensures !ReportedStarving(c, longer.Prefix(m)) && !SilenceFault(c, longer.Prefix(m)) {
      assert m <= |w.polls| ==> longer.Prefix(m) == w.Prefix(m);
      assert m == |longer.polls| ==> longer.Prefix(m) == longer;
    }
  }

  /** With no fault before it, output was active throughout a silence fault's run. */
  lemma {:induction false} FaultFreeRun(c: Config, w: Watch, p: Poll)
    requires FaultFree(c, w) && SilenceFault(c, After(w, p))
    ensures ActiveThroughout(c, After(w, p))
  {
    var longer := After(w, p);
    SilenceFaultIsUnbroken(c, longer);
    hide SilenceFault, ReportedStarving, ActiveThroughout, Observed, CorroboratedFrom;
    var k := CorroboratedFrom(c, longer, |longer.polls|);
    forall m | k < m < |longer.polls| ensures !ReportedStarving(c, longer.Prefix(m)) {
      assert longer.Prefix(m) == w.Prefix(m);
    }
  }

  function Since(fault: Fault): nat
  {
    match fault
    case NoBuffers(since, _) => since
    case SilentWhileOutputRunning(since, _) => since
  }

  lemma {:induction false} LastFramesMeans(w: Watch, n: nat)
    requires w.Timed() && n <= |w.polls|
    ensures w.armed <= LastFrames(w, n) && (n > 0 ==> LastFrames(w, n) <= w.polls[n - 1].now)
    ensures forall i :: 1 <= i < n && (Advanced(w, i) || Backward(w, i)) ==> w.polls[i].now <= LastFrames(w, n)
  {
    if n > 1 { LastFramesMeans(w, n - 1); }
  }

  /** The frame count changed by poll i, or the buffer count fell. */
  ghost predicate Moved(w: Watch, i: nat)
    requires 1 <= i < |w.polls|
  {
    var was, is_ := w.polls[i - 1].activity, w.polls[i].activity;
    is_.frames != was.frames || is_.buffers < was.buffers
  }

  /** Over the first n polls: nothing has moved, and the arm is past, for the whole
      timeout; and that means something, because the tap delivers silence to an
      idle output or because the output is not idle. */
  ghost predicate Dead(c: Config, w: Watch, n: nat)
    requires 1 <= n <= |w.polls|
  {
    var p := w.polls[n - 1];
    && w.armed + c.noBufferTimeout <= p.now
    && (forall i :: 1 <= i < n && Moved(w, i) ==> w.polls[i].now + c.noBufferTimeout <= p.now)
    && (c.emitsSilenceWhenIdle || p.output == Active)
  }

  /** The counters went backwards at poll n - 1. */
  ghost predicate Reset(w: Watch, n: nat)
    requires 1 <= n <= |w.polls|
  {
    && n > 1
    && var was, is_ := w.polls[n - 2].activity, w.polls[n - 1].activity;
    is_.frames < was.frames || is_.buffers < was.buffers
  }

  lemma {:induction false} LastFramesIs(w: Watch, n: nat)
    requires w.Timed() && n <= |w.polls|
    ensures LastFrames(w, n) == w.armed || exists i :: 1 <= i < n && Moved(w, i) && w.polls[i].now == LastFrames(w, n)
  {
    if n > 1 && !Backward(w, n - 1) && !Advanced(w, n - 1) {
      LastFramesIs(w, n - 1);
    } else if n > 1 {
      assert Moved(w, n - 1);
    }
  }

  lemma {:induction false} StarvedIff(c: Config, w: Watch, n: nat)
    requires w.Timed() && 1 <= n <= |w.polls|
    ensures Starved(c, w, n) <==> !Reset(w, n) && Dead(c, w, n)
  {
    LastFramesMeans(w, n);
    LastFramesIs(w, n);
    hide LastFrames;
    assert forall i :: 1 <= i < n ==> (Moved(w, i) <==> Advanced(w, i) || Backward(w, i));
    hide Advanced, Backward, Moved;
  }

  /** Starvation is reported exactly when the tap is dead and its counters did not
      just go backwards; the loss starts where they last moved, or at the arm. */
  lemma {:induction false} StarvationIff(c: Config, w: Watch)
    requires w.Timed() && w.polls != []
    ensures ReportedStarving(c, w) <==> !Reset(w, |w.polls|) && Dead(c, w, |w.polls|)
    ensures ReportedStarving(c, w) ==>
              var since, now := Observed(c, w).fault.since, w.polls[|w.polls| - 1].now;
              && Observed(c, w).fault.lasted == now - since && w.armed <= since <= now
              && (forall i :: 1 <= i < |w.polls| && Moved(w, i) ==> w.polls[i].now <= since)
              && (since == w.armed || exists i :: 1 <= i < |w.polls| && Moved(w, i) && w.polls[i].now == since)
  {
    var n := |w.polls|;
    StarvedIff(c, w, n);
    LastFramesMeans(w, n);
    LastFramesIs(w, n);
    hide LastFrames, Dead;
    assert forall i :: 1 <= i < n ==> (Moved(w, i) <==> Advanced(w, i) || Backward(w, i));
    assert n > 1 ==> (Reset(w, n) <==> Backward(w, n - 1));
    hide Advanced, Moved, QuietFrom, CorroboratedFrom;
  }

  /** The quiet notice: on the first poll, a dead-looking tap on an output that is
      not active; later, when there is no fault, a quiet run long enough. */
  lemma {:induction false} QuietNoticeIff(c: Config, w: Watch)
    requires w.Timed() && w.polls != []
    ensures var n, p := |w.polls|, w.polls[|w.polls| - 1];
            Observed(c, w).NoAudio? <==>
              if n == 1 then w.armed + c.noBufferTimeout <= p.now && !c.emitsSilenceWhenIdle && p.output != Active
              else !Observed(c, w).Faulted? && exists q: nat :: QuietRun(w, q, n) && p.now - w.Moment(q) >= c.quietNoticeAfter
    ensures Observed(c, w).NoAudio? && |w.polls| > 1 ==>
              exists q: nat :: QuietRun(w, q, |w.polls|) && Observed(c, w).lasted == w.polls[|w.polls| - 1].now - w.Moment(q)
  {
    var n := |w.polls|;
    if n > 1 {
      QuietFromMeans(w, n);
      var first := QuietFrom(w, n);
      assert Backward(w, n - 1) ==> forall q: nat :: !QuietRun(w, q, n);
      hide Starved, Heard, Quieted, Starvation, QuietFrom, CorroboratedFrom;
      forall q: nat | QuietRun(w, q, n) ensures first > 0 && w.Moment(first) <= w.Moment(q) {}
    }
  }

  /** The lost audio starts after the arm; a starved tap delivered nothing since. */
  lemma {:induction false} FaultStart(c: Config, w: Watch)
    requires w.Timed() && w.polls != [] && Observed(c, w).Faulted?
    ensures var fault, now := Observed(c, w).fault, w.polls[|w.polls| - 1].now;
            && w.armed <= Since(fault) <= now
            && (fault.NoBuffers? ==>
                  && fault.since + fault.lasted == now && fault.lasted >= c.noBufferTimeout
                  && forall i :: 1 <= i < |w.polls| && Advanced(w, i) ==> w.polls[i].now <= fault.since)
  {
    LastFramesMeans(w, |w.polls|);
  }

  lemma {:induction false} StarvationMeans(c: Config, w: Watch)
    requires w.Timed() && w.polls != []
    ensures var v, now := Starvation(c, w, |w.polls|), w.polls[|w.polls| - 1].now;
            v.Faulted? ==>
              && v.fault.NoBuffers? && v.fault.since + v.fault.lasted == now && v.fault.lasted >= c.noBufferTimeout
              && forall i :: 1 <= i < |w.polls| && Advanced(w, i) ==> w.polls[i].now <= v.fault.since
  {
    LastFramesMeans(w, |w.polls|);
    hide LastFrames, Advanced;
  }

  // ---------------------------------------------------------------- the object

  /** The moment a run opened at poll k began; 0 is no run. */
  function Opened(w: Watch, k: nat): Option<nat>
    requires k <= |w.polls|
  {
    if k == 0 then None else Some(w.Moment(k))
  }

  class Watchdog {
    const config: Config
    var baseline: Option<Activity>
    var armedAt: nat
    var lastPoll: nat
    var lastFrames: nat
    var quietSince: Option<nat>
    var corroboratedSince: Option<nat>
    var audible: bool
    ghost var watch: Watch

    /** Every clock but the corroborated one reads as the history says. */
    ghost predicate Clocked()
      reads this`baseline, this`armedAt, this`lastPoll, this`lastFrames, this`quietSince, this`audible, this`watch
    {
      var n := |watch.polls|;
      && watch.Timed()
      && baseline == (if n == 0 then None else Some(watch.polls[n - 1].activity))
      && armedAt == watch.armed && lastPoll == watch.Moment(n) && lastFrames == LastFrames(watch, n)
      && quietSince == Opened(watch, QuietFrom(watch, n))
      && (audible <==> Audible(watch, n))
    }

    ghost predicate Valid()
      reads this
    {
      Clocked() && corroboratedSince == Opened(watch, CorroboratedFrom(config, watch, |watch.polls|))
    }

    constructor (config: Config)
      ensures Valid() && this.config == config && watch == Watch(0, [])
    {
      this.config := config;
      baseline, armedAt, lastPoll, lastFrames := None, 0, 0, 0;
      quietSince, corroboratedSince, audible := None, None, false;
      watch := Watch(0, []);
    }

    method Arm(now: nat)
      modifies this
      ensures Valid() && watch == Watch(now, []) && lastPoll == now
    {
      baseline, armedAt, lastPoll, lastFrames := None, now, now, now;
      quietSince, corroboratedSince, audible := None, None, false;
      watch := Watch(now, []);
    }

    /** The verdict on the frames delivered over the whole history; a fault says
        that nothing was delivered for at least the timeout. */
    method StarvationVerdict(now: nat, output: OutputActivity) returns (v: Verdict)
      requires Clocked() && watch.polls != []
      requires now == lastPoll && output == watch.polls[|watch.polls| - 1].output
      ensures v == Starvation(config, watch, |watch.polls|)
      ensures v.Faulted? ==>
                && v.fault.NoBuffers? && v.fault.since + v.fault.lasted == now && v.fault.lasted >= config.noBufferTimeout
                && forall i :: 1 <= i < |watch.polls| && Advanced(watch, i) ==> watch.polls[i].now <= v.fault.since
    {
      StarvationMeans(config, watch);
      hide LastFrames, QuietFrom, Audible, Advanced;
      var since := Max(lastFrames, armedAt);
      var lasted := Less(now, since);
      if lasted < config.noBufferTimeout { return Healthy; }
      if !config.emitsSilenceWhenIdle && output != Active { return NoAudio(lasted); }
      return Faulted(NoBuffers(since, lasted));
    }

    /** The frame and silence clocks after the counters' difference. */
    method NoteCounters(was: Activity, activity: Activity, now: nat, prevPoll: nat, ghost w: Watch, ghost longer: Watch)
      returns (frames: nat, quiet: Option<nat>, corroborated: Option<nat>, heard: bool)
      requires w.polls != [] && Grown(w, longer) && !Backward(longer, |w.polls|)
      requires was == w.polls[|w.polls| - 1].activity && prevPoll == w.Moment(|w.polls|)
      requires activity == longer.polls[|w.polls|].activity && now == longer.polls[|w.polls|].now
      requires lastFrames == LastFrames(w, |w.polls|) && quietSince == Opened(w, QuietFrom(w, |w.polls|))
      requires audible <==> Audible(w, |w.polls|)
      ensures frames == LastFrames(longer, |longer.polls|)
      ensures quiet == Opened(longer, QuietFrom(longer, |longer.polls|))
      ensures heard <==> Audible(longer, |longer.polls|)
      ensures corroborated == if Heard(longer, |w.polls|) then None else corroboratedSince
    {
      NextClocks(config, w, longer);
      hide LastFrames, QuietFrom, CorroboratedFrom, Audible, Grown;
      frames, quiet, corroborated, heard := lastFrames, quietSince, corroboratedSince, audible;
      if was.frames < activity.frames { frames := now; }
      if was.buffers < activity.buffers {
        if Less(activity.silent, was.silent) == activity.buffers - was.buffers {
          if quiet.None? { quiet := Some(prevPoll); }
        } else {
          quiet, corroborated, heard := None, None, true;
        }
      }
    }

    /** Starvation first, then corroborated silence, then the quiet notice. */
    method Judge(prevPoll: nat, output: OutputActivity, ghost n: nat) returns (v: Verdict)
      requires Clocked() && |watch.polls| == n + 1 && n > 0 && !Backward(watch, n)
      requires prevPoll == watch.Moment(n) && output == watch.polls[n].output
      requires corroboratedSince == if Heard(watch, n) then None else Opened(watch, CorroboratedFrom(config, watch, n))
      modifies this`corroboratedSince
      ensures Valid() && v == Observed(config, watch)
    {
      NextCorroborated(config, watch, n);
      assert lastPoll == watch.polls[n].now && quietSince == Opened(watch, QuietFrom(watch, n + 1));
      hide Clocked, Observed, Starved, LastFrames, QuietFrom, CorroboratedFrom, Audible, Heard, Backward, Starvation, Silence;
      v := StarvationVerdict(lastPoll, output);
      if !v.Faulted? { v := JudgeSilence(prevPoll, output); }
    }

    /** Corroborate the silence, if there is any, and judge it. */
    method JudgeSilence(prevPoll: nat, output: OutputActivity) returns (v: Verdict)
      requires prevPoll <= lastPoll && (quietSince.Some? ==> quietSince.value <= lastPoll)
      requires corroboratedSince.Some? ==> corroboratedSince.value <= lastPoll
      modifies this`corroboratedSince
      ensures corroboratedSince == if quietSince.None? || output != Active then None
                                   else if old(corroboratedSince).Some? then old(corroboratedSince) else Some(prevPoll)
      ensures v == Silence(config, quietSince, corroboratedSince, lastPoll)
    {
      if quietSince.None? {
        corroboratedSince := None;
        return Healthy;
      }
      if output == Active {
        if corroboratedSince.None? { corroboratedSince := Some(prevPoll); }
        var corroborated := lastPoll - corroboratedSince.value;
        if corroborated >= config.silenceTimeout {
          return Faulted(SilentWhileOutputRunning(quietSince.value, corroborated));
        }
      } else {
        corroboratedSince := None;
      }
      var quiet := lastPoll - quietSince.value;
      if quiet >= config.quietNoticeAfter { return NoAudio(quiet); }
      return Healthy;
    }

    /** Nothing to compare with yet: only starvation can be judged. */
    method FirstPoll(p: Poll) returns (v: Verdict)
      requires Valid() && lastPoll <= p.now && baseline.None?
      modifies this
      ensures Valid() && watch == After(old(watch), p) && v == Observed(config, watch)
    {
      assert Grown(watch, After(watch, p));
      baseline, lastPoll, watch := Some(p.activity), p.now, After(watch, p);
      v := StarvationVerdict(p.now, p.output);
    }

    /** Counters from another tap: start over without a verdict. */
    method Restarted(p: Poll) returns (v: Verdict)
      requires Valid() && lastPoll <= p.now && baseline.Some?
      requires p.activity.frames < baseline.value.frames || p.activity.buffers < baseline.value.buffers
      modifies this
      ensures Valid() && watch == After(old(watch), p) && v == Observed(config, watch)
    {
      hide LastFrames, QuietFrom, CorroboratedFrom, Audible, Starved;
      ghost var w, longer := watch, After(watch, p);
      AfterGrows(w, p);
      NextClocks(config, w, longer);
      hide Heard, Quieted, Advanced, Grown;
      baseline, lastPoll, watch := Some(p.activity), p.now, longer;
      lastFrames, quietSince, corroboratedSince := p.now, None, None;
      v := Healthy;
    }

    method Compare(p: Poll) returns (v: Verdict)
      requires Valid() && lastPoll <= p.now && baseline.Some?
      requires baseline.value.frames <= p.activity.frames && baseline.value.buffers <= p.activity.buffers
      modifies this
      ensures Valid() && watch == After(old(watch), p) && v == Observed(config, watch)
    {
      hide LastFrames, QuietFrom, CorroboratedFrom, Audible, Starved, Observed;
      ghost var w, longer := watch, After(watch, p);
      AfterGrows(w, p);
      NextClocks(config, w, longer);
      var prevPoll := lastPoll;
      hide Heard, Quieted, Advanced, Grown;
      var frames, quiet, corroborated, heard := NoteCounters(baseline.value, p.activity, p.now, prevPoll, w, longer);
      baseline, lastPoll, watch := Some(p.activity), p.now, longer;
      lastFrames, quietSince, corroboratedSince, audible := frames, quiet, corroborated, heard;
      v := Judge(prevPoll, p.output, |w.polls|);
    }

    /** Observe the tap once; the verdict is the one the history calls for. */
    method PollOnce(now: nat, activity: Activity, output: OutputActivity) returns (v: Verdict)
      requires Valid() && lastPoll <= now
      modifies this
      ensures Valid() && lastPoll == now && watch == After(old(watch), Poll(now, activity, output)) && watch.Timed()
      ensures v == Observed(config, watch)
      ensures audible <==> Audible(watch, |watch.polls|)
    {
      hide Observed, LastFrames, QuietFrom, Audible, CorroboratedFrom;
      if baseline.None? {
        v := FirstPoll(Poll(now, activity, output));
      } else if activity.frames < baseline.value.frames || activity.buffers < baseline.value.buffers {
        v := Restarted(Poll(now, activity, output));
      } else {
        v := Compare(Poll(now, activity, output));
      }
    }
  }

  function After(w: Watch, p: Poll): Watch { Watch(w.armed, w.polls + [p]) }

  lemma {:induction false} AfterGrows(w: Watch, p: Poll)
    requires w.Timed() && w.Moment(|w.polls|) <= p.now
    ensures Grown(w, After(w, p))
  {
    assert (w.polls + [p])[..|w.polls|] == w.polls;
  }

  /** One more poll. */
  ghost predicate Grown(w: Watch, longer: Watch)
  {
    && longer.Timed() && longer.armed == w.armed
    && |longer.polls| == |w.polls| + 1 && longer.polls[..|w.polls|] == w.polls
  }

  lemma {:induction false} NextClocks(c: Config, w: Watch, longer: Watch)
    requires Grown(w, longer) && w.polls != []
    ensures var n := |w.polls|;
            && LastFrames(longer, n + 1)
               == (if Backward(longer, n) || Advanced(longer, n) then longer.polls[n].now else LastFrames(w, n))
            && Opened(longer, QuietFrom(longer, n + 1))
               == (if Backward(longer, n) || Heard(longer, n) then None
                   else if QuietFrom(w, n) > 0 then Opened(w, QuietFrom(w, n))
                   else if Quieted(longer, n) then Some(w.Moment(n)) else None)
            && (Audible(longer, n + 1) <==> Audible(w, n) || Heard(longer, n))
            && Opened(longer, CorroboratedFrom(c, longer, n)) == Opened(w, CorroboratedFrom(c, w, n))
            && (Backward(longer, n) ==> CorroboratedFrom(c, longer, n + 1) == 0)
  {
    HistoryGrows(c, w, longer);
    assert Audible(longer, |w.polls| + 1) <==> Audible(longer, |w.polls|) || Heard(longer, |w.polls|);
  }

  lemma {:induction false} NextCorroborated(c: Config, w: Watch, n: nat)
    requires |w.polls| == n + 1 && n > 0 && w.Timed() && !Backward(w, n)
    ensures CorroboratedFrom(c, w, n + 1)
            == if Heard(w, n) then 0
               else if Starvation(c, w, n + 1).Faulted? then CorroboratedFrom(c, w, n)
               else if QuietFrom(w, n + 1) == 0 || w.polls[n].output != Active then 0
               else if CorroboratedFrom(c, w, n) > 0 then CorroboratedFrom(c, w, n)
               else n
    ensures Heard(w, n) ==> QuietFrom(w, n + 1) == 0
    ensures w.Moment(QuietFrom(w, n + 1)) <= w.polls[n].now && w.Moment(CorroboratedFrom(c, w, n + 1)) <= w.polls[n].now
    ensures Observed(c, w)
            == if Starvation(c, w, n + 1).Faulted? then Starvation(c, w, n + 1)
               else Silence(c, Opened(w, QuietFrom(w, n + 1)), Opened(w, CorroboratedFrom(c, w, n + 1)), w.polls[n].now)
  {
  }

  /** The verdict once starvation is ruled out. */
  function Silence(c: Config, quiet: Option<nat>, corroborated: Option<nat>, now: nat): Verdict
  {
    if quiet.None? then Healthy
    else if corroborated.Some? && Less(now, corroborated.value) >= c.silenceTimeout then
      Faulted(SilentWhileOutputRunning(quiet.value, Less(now, corroborated.value)))
    else if Less(now, quiet.value) >= c.quietNoticeAfter then NoAudio(Less(now, quiet.value))
    else Healthy
  }

  // Earlier polls read the same in a longer history.
  lemma {:induction false} HistoryGrows(c: Config, w: Watch, longer: Watch)
    requires w.armed == longer.armed && w.polls <= longer.polls
    ensures forall i :: 1 <= i < |w.polls| ==>
              && (Backward(longer, i) <==> Backward(w, i)) && (Heard(longer, i) <==> Heard(w, i))
    ensures LastFrames(longer, |w.polls|) == LastFrames(w, |w.polls|)
    ensures QuietFrom(longer, |w.polls|) == QuietFrom(w, |w.polls|)
    ensures CorroboratedFrom(c, longer, |w.polls|) == CorroboratedFrom(c, w, |w.polls|)
    ensures Audible(longer, |w.polls|) <==> Audible(w, |w.polls|)
  {
    ClocksAgree(c, w, longer, |w.polls|);
  }

  lemma {:induction false} ClocksAgree(c: Config, w: Watch, longer: Watch, n: nat)
    requires w.armed == longer.armed && w.polls <= longer.polls && n <= |w.polls|
    ensures LastFrames(longer, n) == LastFrames(w, n) && QuietFrom(longer, n) == QuietFrom(w, n)
    ensures CorroboratedFrom(c, longer, n) == CorroboratedFrom(c, w, n)
  {
    if n > 1 { ClocksAgree(c, w, longer, n - 1); }
  }
}
