/** When originals are given up on: the owner's deadline, over every run. */
module AecWorkerDeadline {
  import opened AudioBlocks
  import opened Outcomes
  import opened AecAdapter
  import opened AecOwner
  import opened AecWorker
  import opened AecAdapterRuns
  import opened AecAdapterTally
  import opened AecWorkerRuns
  import opened AecWorkerFence

  // ---------------------------------------------------------------- what the adapter never says

  /** The reasons the adapter gives; the others are the owner's own. */
  const SAYABLE: set<OutputKind> := {Cleaned, Raw(MissingReference), Raw(BackendFailed), Raw(RouteReset)}

  ghost predicate AdapterOnly(out: seq<Output>) { Says(out, SAYABLE) }

  ghost function TermsOf(a: Adapter): Terms
  {
    Terms(SAYABLE, a.stats.cleaned - Count(a.out, false), a.stats.raw - Count(a.out, true), false)
  }

  lemma {:induction false} FinishSaysSo(env: Env, a: Adapter)
    requires Settled(env, a) && AdapterOnly(a.out)
    ensures AdapterOnly(Finish(env, a).out)
  {
    FinishSays(env, a, TermsOf(a));
    hide Finish;
  }

  lemma {:induction false} RunJobSays(env: Env, a: Adapter, fence: nat, job: Job)
    requires Settled(env, a) && AdapterOnly(a.out)
    ensures RunJob(env, a, fence, job).Some? ==> AdapterOnly(RunJob(env, a, fence, job).value.out)
  {
    var t := TermsOf(a);
    assert Tally(env, a, t);
    assert forall r :: Tally(env, r, t) ==> AdapterOnly(r.out);
    hide AdapterOnly, TermsOf, Tally, PushReference, PushSamples, Settled;
    var rendered := if job.reference.Some? then PushRender(env, a, fence, job.start, job.reference.value) else Accepted(a);
    if rendered.Refused? { return; }
    if job.reference.Some? { RenderSays(env, a, fence, job.start, job.reference.value, t); }
    if PushCapture(env, rendered.adapter, fence, job.start, job.mic).Refused? { return; }
    PushSamplesSay(env, rendered.adapter, job.mic, t);
    WaitSays(env, PushSamples(env, rendered.adapter, job.mic), t);
    hide FlushReferenceWait;
  }

  // ---------------------------------------------------------------- the deadline

  /** The oldest original has been held for the whole deadline. */
  ghost predicate Overdue(limits: Limits, pending: seq<Pending>, now: nat)
  {
    pending != [] && pending[0].acceptedMs + limits.deadlineMs <= now
  }

  /** Originals are held in the order they were accepted in, none from the future. */
  ghost predicate Aging(pending: seq<Pending>, now: nat)
  {
    && (forall i :: 0 <= i < |pending| ==> pending[i].acceptedMs <= now)
    && (forall i, j :: 0 <= i < j < |pending| ==> pending[i].acceptedMs <= pending[j].acceptedMs)
  }

  /** An offer on its way carries the time of its own call. */
  ghost predicate PcNow(pc: OwnerPc, now: nat)
    decreases pc
  {
    match pc
    case Receive(_, goal) => goal.ThenSubmit? ==> goal.offer.now == now
    case Fall(_, _, after) => !after.Fall? && PcNow(after, now)
    case CheckStatus(offer) => offer.now == now
    case Send(offer) => offer.now == now
    case _ => true
  }

  ghost predicate Expiring(pc: OwnerPc) { pc.Fall? && pc.reason == WorkerDeadline }

  ghost predicate OwnerOnTime(limits: Limits, o: Owner, pc: OwnerPc)
  {
    && Aging(o.pending, o.now) && PcNow(pc, o.now)
    && (Expiring(pc) <==> Overdue(limits, o.pending, o.now))
  }

  /** What is computed but not yet published. */
  ghost predicate Unsaid(s: System)
  {
    && AdapterOnly(s.adapter.out)
    && (forall i :: 0 <= i < |s.results| ==> AdapterOnly(s.results[i].blocks))
    && (s.worker.Offering? || s.worker.Sending? ==> AdapterOnly(s.worker.result.blocks))
  }

  ghost predicate OnTime(limits: Limits, s: System)
  {
    OwnerOnTime(limits, s.owner, s.pc) && Unsaid(s)
  }

  lemma {:induction false} ConsumeAges(pending: seq<Pending>, n: nat, now: nat)
    requires Aging(pending, now)
    ensures var r := Consume(pending, n);
            Aging(r, now) && (r != [] ==> pending != [] && pending[0].acceptedMs <= r[0].acceptedMs)
    decreases |pending|
  {
    if n != 0 && pending != [] {
      var left := |pending[0].samples| - pending[0].used;
      assert Aging(pending[1..], now);
      if n >= left { ConsumeAges(pending[1..], n - left, now); }
    }
  }

  /** Accepting results publishes adapter blocks only, and what is left is no older. */
  lemma {:induction false} AcceptAllAges(limits: Limits, o: Owner, blocks: seq<Output>)
    requires Aging(o.pending, o.now) && AdapterOnly(blocks)
    ensures var r := AcceptAll(o, blocks).0;
            && Aging(r.pending, r.now) && r.now == o.now && r.epoch == o.epoch && r.next == o.next && r.admitted == o.admitted
            && (Overdue(limits, r.pending, r.now) ==> Overdue(limits, o.pending, o.now))
            && o.out <= r.out && AdapterOnly(r.out[|o.out|..])
    decreases |blocks|
  {
    if blocks != [] && Acceptable(o, blocks[0]) {
      var next := Accept(o, blocks[0]);
      ConsumeAges(o.pending, |blocks[0].samples|, o.now);
      AcceptAllAges(limits, next, blocks[1..]);
      var r := AcceptAll(o, blocks).0;
      assert next.out == o.out + [blocks[0].(epoch := o.epoch)];
      assert r.out[|o.out|..] == [blocks[0].(epoch := o.epoch)] + r.out[|next.out|..];
    }
  }

  lemma {:induction false} HoldAges(limits: Limits, o: Owner, mic: seq<Sample>, sent: bool)
    requires o.epoch in o.admitted && Aging(o.pending, o.now) && !Overdue(limits, o.pending, o.now) && limits.deadlineMs >= 1
    ensures var r := Hold(o, mic, o.now, sent); Aging(r.pending, r.now) && !Overdue(limits, r.pending, r.now) && r.now == o.now
  {
  }

  lemma {:induction false} NoneAges(limits: Limits, now: nat)
    ensures Aging([], now) && !Overdue(limits, [], now)
  {
  }

  lemma {:induction false} AfterPollOnTime(limits: Limits, s: System, goal: Goal)
    requires Aging(s.owner.pending, s.owner.now) && !Overdue(limits, s.owner.pending, s.owner.now)
    requires goal.ThenSubmit? ==> goal.offer.now == s.owner.now
    ensures var t := AfterPoll(limits, s, goal); OwnerOnTime(limits, t.owner, t.pc) && !Expiring(t.pc)
  {
    hide Aging, Overdue;
    if goal.ThenSubmit? {
      assert PcNow(CheckStatus(goal.offer), s.owner.now);
      assert PcNow(Fall(WorkerBusy, false, CheckStatus(goal.offer)), s.owner.now);
    }
  }

  lemma {:induction false} ReceiveOnTime(limits: Limits, s: System)
    requires OnTime(limits, s) && s.pc.Receive?
    ensures var t := ReceiveOne(limits, s);
            OwnerOnTime(limits, t.owner, t.pc) && !Expiring(t.pc) && t.owner.now == s.owner.now
  {
    hide Aging, Overdue, AdapterOnly, AfterPoll, AcceptAll;
    AfterPollOnTime(limits, s, s.pc.goal);
    AfterPollSame(limits, s, s.pc.goal);
    assert PcNow(Receive(0, s.pc.goal), s.owner.now);
    assert PcNow(Fall(BackendFailed, true, Receive(0, s.pc.goal)), s.owner.now);
    if s.pc.left > 0 {
      var again := Receive(s.pc.left - 1, s.pc.goal);
      assert PcNow(again, s.owner.now) && PcNow(Fall(BackendFailed, true, again), s.owner.now);
      if s.results != [] { AcceptAllAges(limits, s.owner, s.results[0].blocks); }
    }
  }

  lemma {:induction false} AfterPollSame(limits: Limits, s: System, goal: Goal)
    ensures var t := AfterPoll(limits, s, goal); t == s.(owner := s.owner.(closed := t.owner.closed), pc := t.pc)
  {
  }

  lemma {:induction false} OwnerLeaves(limits: Limits, s: System)
    requires s.owner.epoch in s.owner.admitted
    ensures var t := OwnerRuns(limits, s);
            && t.adapter == s.adapter && t.worker == s.worker
            && (t.results == s.results || (s.results != [] && t.results == s.results[1..]))
  {
    hide Fallback, Hold, PassThrough, ReceiveOne, SendOne;
    if s.pc.Receive? { ReceiveLeaves(limits, s); }
    if s.pc.Send? { SendLeaves(limits, s); }
  }

  lemma {:induction false} ReceiveLeaves(limits: Limits, s: System)
    requires s.pc.Receive?
    ensures var t := ReceiveOne(limits, s);
            && t.adapter == s.adapter && t.worker == s.worker && t.commands == s.commands
            && (t.results == s.results || (s.results != [] && t.results == s.results[1..]))
  {
    hide AcceptAll, AfterPoll;
    AfterPollSame(limits, s, s.pc.goal);
  }

  lemma {:induction false} SendLeaves(limits: Limits, s: System)
    requires s.pc.Send? && s.owner.epoch in s.owner.admitted
    ensures var t := SendOne(limits, s); t.adapter == s.adapter && t.worker == s.worker && t.results == s.results
  {
    hide Hold;
  }

  lemma {:induction false} SendOnTime(limits: Limits, s: System)
    requires OnTime(limits, s) && s.pc.Send? && s.owner.epoch in s.owner.admitted && limits.deadlineMs >= 1
    ensures var t := SendOne(limits, s);
            OwnerOnTime(limits, t.owner, t.pc) && !Expiring(t.pc) && t.owner.now == s.owner.now
  {
    hide Aging, Overdue, Hold, Unsaid;
    HoldAges(limits, s.owner, s.pc.offer.mic, true);
    HoldAges(limits, s.owner, s.pc.offer.mic, false);
    assert PcNow(Fall(BackendFailed, true, Idle), s.owner.now) && PcNow(Fall(WorkerBusy, false, Idle), s.owner.now);
  }

  lemma {:induction false} OwnerOnTimeStep(limits: Limits, s: System)
    requires OnTime(limits, s) && s.owner.epoch in s.owner.admitted && limits.deadlineMs >= 1
    ensures var t := OwnerRuns(limits, s);
            OwnerOnTime(limits, t.owner, t.pc) && !Expiring(t.pc) && t.owner.now == s.owner.now
  {
    hide Aging, Overdue, ReceiveOne, SendOne, Unsaid;
    NoneAges(limits, s.owner.now);
    assert PcNow(Fall(WorkerBusy, false, Idle), s.owner.now);
    match s.pc
    case Receive(_, _) => ReceiveOnTime(limits, s);
    case Send(_) => SendOnTime(limits, s);
    case _ =>
  }

  lemma {:induction false} UnsaidLater(s: System, t: System)
    requires Unsaid(s) && t.adapter == s.adapter && t.worker == s.worker
    requires t.results == s.results || (s.results != [] && t.results == s.results[1..])
    ensures Unsaid(t)
  {
    hide AdapterOnly;
  }

  lemma {:induction false} ComputeUnsaid(env: Env, s: System)
    requires s.worker.Took? && Settled(env, s.adapter) && Unsaid(s)
    ensures Unsaid(Compute(env, s))
  {
    hide RunJob, Finish, Reset, Settled;
    FinishSaysSo(env, s.adapter);
    if s.worker.command.Input? {
      var job := s.worker.command.job;
      var reset := if s.active != s.owner.fence then Reset(env, s.adapter, s.owner.fence, job.start) else Accepted(s.adapter);
      if reset.Accepted? { QuietSays(env, reset.adapter, s.owner.fence, job); }
    }
    hide AdapterOnly;
  }

  lemma {:induction false} QuietSays(env: Env, a: Adapter, fence: nat, job: Job)
    requires Settled(env, a)
    ensures Settled(env, a.(out := []))
    ensures var r := RunJob(env, a.(out := []), fence, job); r.Some? ==> AdapterOnly(r.value.out)
  {
    RunJobSays(env, a.(out := []), fence, job);
    hide RunJob;
  }

  lemma {:induction false} WorkerUnsaid(env: Env, limits: Limits, s: System)
    requires Settled(env, s.adapter) && Unsaid(s)
    ensures Unsaid(WorkerRuns(env, limits, s)) && WorkerRuns(env, limits, s).owner == s.owner && WorkerRuns(env, limits, s).pc == s.pc
  {
    hide Compute, AdapterOnly, Settled;
    if s.worker.Took? { ComputeUnsaid(env, s); ComputeOwner(env, s); }
  }

  lemma {:induction false} ComputeOwner(env: Env, s: System)
    requires s.worker.Took? && Settled(env, s.adapter)
    ensures Compute(env, s).owner == s.owner && Compute(env, s).pc == s.pc && Compute(env, s).results == s.results
  {
    hide RunJob, Finish, Reset, Settled;
  }

  lemma {:induction false} BeginOnTime(limits: Limits, s: System, step: AecWorker.Step)
    requires OnTime(limits, s) && s.pc.Idle?
    ensures OnTime(limits, Begin(limits, s, step))
  {
    NoneAges(limits, s.owner.now);
    if step.CallPoll? { BeginPollOnTime(limits, s, step.now, PollOnly); }
    if step.CallFinish? { BeginPollOnTime(limits, s, step.now, ThenClose); }
    if step.CallSubmit? {
      BeginPollOnTime(limits, s, step.now, ThenSubmit(Offer(step.mic, step.reference, step.now, step.defer)));
    }
    UnsaidLater(s, Begin(limits, s, step));
    hide Aging, Overdue, Unsaid, BeginPoll;
  }

  lemma {:induction false} BeginPollOnTime(limits: Limits, s: System, now: nat, goal: Goal)
    requires OwnerOnTime(limits, s.owner, s.pc) && s.pc.Idle? && (goal.ThenSubmit? ==> goal.offer.now == now)
    ensures var t := BeginPoll(limits, s, now, goal); OwnerOnTime(limits, t.owner, t.pc)
  {
    assert PcNow(Receive(limits.queuedBlocks + 1, goal), now);
    assert PcNow(Fall(WorkerDeadline, false, Receive(limits.queuedBlocks + 1, goal)), now);
  }

  lemma {:induction false} StepOnTime(env: Env, limits: Limits, s: System, step: AecWorker.Step)
    requires OnTime(limits, s) && Settled(env, s.adapter) && s.owner.epoch in s.owner.admitted && limits.deadlineMs >= 1
    ensures OnTime(limits, Exec(env, limits, s, step))
  {
    hide OwnerRuns, WorkerRuns, Settled, Begin, OwnerOnTime, AdapterOnly;
    match step
    case OwnerStep =>
      OwnerOnTimeStep(limits, s);
      OwnerLeaves(limits, s);
      UnsaidLater(s, OwnerRuns(limits, s));
    case WorkerStep => WorkerUnsaid(env, limits, s);
    case WorkerDies =>
    case _ => if s.pc.Idle? { BeginOnTime(limits, s, step); }
  }

  lemma {:induction false} EveryRunIsOnTime(env: Env, limits: Limits, epoch: nat, start: nat, steps: seq<AecWorker.Step>)
    requires env.config.Valid() && limits.Valid()
    ensures OnTime(limits, RunSystem(env, limits, epoch, start, false, steps))
  {
    hide Inv, Exec, RunSystem, Settled, AecWorker.Start, OnTime;
    if steps == [] {
      RunStart(env, limits, epoch, start);
      StartOnTime(env, limits, epoch, start);
    } else {
      var before, last := steps[..|steps| - 1], steps[|steps| - 1];
      assert before + [last] == steps;
      EveryRunIsOnTime(env, limits, epoch, start, before);
      RunOn(env, limits, epoch, start, before, last);
      StepOnTime(env, limits, RunSystem(env, limits, epoch, start, false, before), last);
    }
  }

  lemma {:induction false} StartOnTime(env: Env, limits: Limits, epoch: nat, start: nat)
    ensures OnTime(limits, AecWorker.Start(env, epoch, start))
  {
  }

  // ---------------------------------------------------------------- what a call publishes

  ghost predicate IsDeadline(block: Output) { block.kind == Raw(WorkerDeadline) }

  ghost predicate NoDeadline(out: seq<Output>)
  {
    forall i :: 0 <= i < |out| ==> !IsDeadline(out[i])
  }

  /** The block is the unpublished rest of this original, for the deadline. */
  ghost predicate GivenUp(block: Output, epoch: nat, p: Pending)
  {
    block == Output(epoch, p.From(), p.samples[p.used..], Raw(WorkerDeadline))
  }

  /** Every held original, given up on in order; then nothing more of the kind. */
  ghost predicate AllGivenUp(out: seq<Output>, epoch: nat, pending: seq<Pending>)
  {
    && |pending| <= |out|
    && (forall i :: 0 <= i < |pending| ==> GivenUp(out[i], epoch, pending[i]))
    && NoDeadline(out[|pending|..])
  }

  lemma {:induction false} RawBlocksAre(epoch: nat, pending: seq<Pending>, reason: BypassReason)
    ensures var r := RawBlocks(epoch, pending, reason);
            && |r| == |pending|
            && forall i :: 0 <= i < |r| ==> r[i] == RawBlock(epoch, pending[i], reason)
  {
    if pending != [] { RawBlocksAre(epoch, pending[1..], reason); }
  }

  /** What one step adds to the published blocks. */
  ghost predicate Adds(s: System, t: System, expires: bool)
  {
    && s.owner.out <= t.owner.out
    && var added := t.owner.out[|s.owner.out|..];
    if expires then |added| == |s.owner.pending| && AllGivenUp(added, s.owner.epoch, s.owner.pending) else NoDeadline(added)
  }

  lemma {:induction false} SameOutAdds(s: System, t: System)
    requires t.owner.out == s.owner.out
    ensures Adds(s, t, false)
  {
  }

  lemma {:induction false} FallsBackAdds(s: System, t: System, reason: BypassReason)
    requires t.owner.out == s.owner.out + RawBlocks(s.owner.epoch, s.owner.pending, reason)
    ensures Adds(s, t, reason == WorkerDeadline)
  {
    var blocks := RawBlocks(s.owner.epoch, s.owner.pending, reason);
    RawBlocksAre(s.owner.epoch, s.owner.pending, reason);
    assert t.owner.out[|s.owner.out|..] == blocks;
    if reason == WorkerDeadline {
      forall i | 0 <= i < |blocks| ensures GivenUp(blocks[i], s.owner.epoch, s.owner.pending[i]) {
        assert blocks[i] == RawBlock(s.owner.epoch, s.owner.pending[i], reason);
      }
    }
  }

  lemma {:induction false} ReceiveAdds(limits: Limits, s: System)
    requires OnTime(limits, s) && s.pc.Receive?
    ensures Adds(s, ReceiveOne(limits, s), false)
  {
    hide AcceptAll, AfterPoll, Aging, Overdue, PcNow;
    AfterPollSame(limits, s, s.pc.goal);
    if s.pc.left > 0 && s.results != [] { AcceptAllAges(limits, s.owner, s.results[0].blocks); }
  }

  lemma {:induction false} OwnerAdds(limits: Limits, s: System)
    requires OnTime(limits, s) && s.owner.epoch in s.owner.admitted
    ensures Adds(s, OwnerRuns(limits, s), Expiring(s.pc))
  {
    hide OnTime, ReceiveOne, Adds;
    var t := OwnerRuns(limits, s);
    match s.pc
    case Receive(_, _) => ReceiveAdds(limits, s);
    case Fall(reason, _, _) => FallsBackAdds(s, t, reason);
    case CheckStatus(_) => LookAdds(s);
    case _ => SameOutAdds(s, t);
  }

  lemma {:induction false} LookAdds(s: System)
    requires s.pc.CheckStatus? && s.owner.epoch in s.owner.admitted
    ensures Adds(s, LookAtStatus(s), false)
  {
  }

  /** A step publishes deadline blocks only if it is the owner falling back for it. */
  lemma {:induction false} StepAdds(env: Env, limits: Limits, s: System, step: AecWorker.Step)
    requires OnTime(limits, s) && Settled(env, s.adapter) && s.owner.epoch in s.owner.admitted
    ensures Adds(s, Exec(env, limits, s, step), step.OwnerStep? && Expiring(s.pc))
  {
    var t := Exec(env, limits, s, step);
    if step.OwnerStep? {
      OwnerAdds(limits, s);
    } else if step.WorkerStep? {
      WorkerUnsaid(env, limits, s);
      SameOutAdds(s, t);
    } else if step.CallCancel? && s.pc.Idle? {
      FallsBackAdds(s, t, WorkerCancelled);
    } else if step.CallReset? && s.pc.Idle? && !s.owner.closed && s.owner.epoch < step.epoch {
      FallsBackAdds(s, t, RouteReset);
    } else {
      hide OnTime, Adds, Settled;
      SameOutAdds(s, t);
    }
  }

  // ---------------------------------------------------------------- a whole call

  /** A call that polls, made at this time and taken. */
  ghost predicate Polls(limits: Limits, s: System, call: AecWorker.Step, now: nat)
  {
    && s.pc.Idle? && s.owner.now <= now
    && match call
       case CallPoll(at) => at == now
       case CallFinish(at) => at == now
       case CallSubmit(epoch, start, mic, reference, at, _) => at == now && Offerable(limits, s.owner, epoch, start, mic, reference)
       case _ => false
  }

  /** Steps of the two threads, without another call. */
  ghost predicate OnlyRuns(steps: seq<AecWorker.Step>)
  {
    forall i :: 0 <= i < |steps| ==> steps[i].OwnerStep? || steps[i].WorkerStep? || steps[i].WorkerDies?
  }

  /** How far a call begun in s has come in t. */
  ghost predicate Underway(limits: Limits, s: System, now: nat, t: System)
  {
    && t.owner.now == now && s.owner.out <= t.owner.out
    && var added := t.owner.out[|s.owner.out|..];
    if Expiring(t.pc) then
      Overdue(limits, s.owner.pending, now) && added == [] && t.owner.pending == s.owner.pending && t.owner.epoch == s.owner.epoch
    else if Overdue(limits, s.owner.pending, now) then AllGivenUp(added, s.owner.epoch, s.owner.pending)
    else NoDeadline(added)
  }

  lemma {:induction false} CallUnderway(limits: Limits, s: System, call: AecWorker.Step, now: nat)
    requires Polls(limits, s, call, now)
    ensures Underway(limits, s, now, Begin(limits, s, call))
  {
    assert s.owner.out[|s.owner.out|..] == [];
  }

  lemma {:induction false} StillUnderway(limits: Limits, s: System, now: nat, t: System, u: System, expires: bool)
    requires Underway(limits, s, now, t) && Adds(t, u, expires) && u.owner.now == now
    requires expires ==> Expiring(t.pc) && !Expiring(u.pc)
    requires !expires ==> (Expiring(u.pc) <==> Expiring(t.pc)) && (Expiring(t.pc) ==> u.owner == t.owner)
    ensures Underway(limits, s, now, u)
  {
    var before, added := t.owner.out[|s.owner.out|..], u.owner.out[|t.owner.out|..];
    var all := u.owner.out[|s.owner.out|..];
    assert all == before + added;
    hide GivenUp, IsDeadline, Overdue;
    if !Expiring(u.pc) && !expires && Overdue(limits, s.owner.pending, now) {
      var n := |s.owner.pending|;
      assert all[n..] == before[n..] + added;
    }
  }

  lemma {:induction false} RunUnderway(env: Env, limits: Limits, epoch: nat, start: nat, steps: seq<AecWorker.Step>,
                                       call: AecWorker.Step, now: nat, rest: seq<AecWorker.Step>)
    requires env.config.Valid() && limits.Valid() && OnlyRuns(rest)
    requires Polls(limits, RunSystem(env, limits, epoch, start, false, steps), call, now)
    ensures Underway(limits, RunSystem(env, limits, epoch, start, false, steps), now,
                     RunSystem(env, limits, epoch, start, false, steps + [call] + rest))
    decreases |rest|
  {
    hide RunSystem, Inv, Settled, Underway, OnTime, Adds;
    var s := RunSystem(env, limits, epoch, start, false, steps);
    if rest == [] {
      assert steps + [call] + rest == steps + [call];
      RunOn(env, limits, epoch, start, steps, call);
      CallUnderway(limits, s, call, now);
    } else {
      hide Polls, Exec;
      var before, last := rest[..|rest| - 1], rest[|rest| - 1];
      RunUnderway(env, limits, epoch, start, steps, call, now, before);
      assert steps + [call] + rest == steps + [call] + before + [last];
      RunOn(env, limits, epoch, start, steps + [call] + before, last);
      EveryRunIsOnTime(env, limits, epoch, start, steps + [call] + before);
      StepUnderway(env, limits, s, now, RunSystem(env, limits, epoch, start, false, steps + [call] + before), last);
    }
  }

  lemma {:induction false} StepUnderway(env: Env, limits: Limits, s: System, now: nat, t: System, step: AecWorker.Step)
    requires limits.deadlineMs >= 1 && OnTime(limits, t) && Settled(env, t.adapter) && t.owner.epoch in t.owner.admitted
    requires Underway(limits, s, now, t) && (step.OwnerStep? || step.WorkerStep? || step.WorkerDies?)
    ensures Underway(limits, s, now, Exec(env, limits, t, step))
  {
    assert t.owner.now == now;
    hide Underway, Settled, Adds, WorkerRuns, OwnerRuns;
    StepAdds(env, limits, t, step);
    if step.OwnerStep? { OwnerOnTimeStep(limits, t); }
    if step.WorkerStep? { WorkerUnsaid(env, limits, t); }
    hide OnTime;
    StillUnderway(limits, s, now, t, Exec(env, limits, t, step), step.OwnerStep? && Expiring(t.pc));
  }

  /** In every run, whatever the worker does: a call that polls at `now` publishes
      audio for the deadline exactly when the oldest original held had then been
      held that long; it then gives up on every original held, in order, and on
      nothing else. When the call is over nothing held is that old. */
  lemma {:induction false} DeadlineIsKept(env: Env, limits: Limits, epoch: nat, start: nat, steps: seq<AecWorker.Step>,
                                          call: AecWorker.Step, now: nat, rest: seq<AecWorker.Step>)
    requires env.config.Valid() && limits.Valid() && OnlyRuns(rest)
    requires Polls(limits, RunSystem(env, limits, epoch, start, false, steps), call, now)
    requires RunSystem(env, limits, epoch, start, false, steps + [call] + rest).pc.Idle?
    ensures var o := RunSystem(env, limits, epoch, start, false, steps).owner;
            var r := RunSystem(env, limits, epoch, start, false, steps + [call] + rest).owner;
            && (r.pending == [] || now < r.pending[0].acceptedMs + limits.deadlineMs)
            && o.out <= r.out
            && var added := r.out[|o.out|..];
            && ((exists i :: 0 <= i < |added| && IsDeadline(added[i])) <==>
                  o.pending != [] && o.pending[0].acceptedMs + limits.deadlineMs <= now)
            && ((exists i :: 0 <= i < |added| && IsDeadline(added[i])) ==> AllGivenUp(added, o.epoch, o.pending))
  {
    RunUnderway(env, limits, epoch, start, steps, call, now, rest);
    EveryRunIsOnTime(env, limits, epoch, start, steps + [call] + rest);
    hide RunSystem, Inv, Aging, Unsaid;
    var o := RunSystem(env, limits, epoch, start, false, steps).owner;
    var r := RunSystem(env, limits, epoch, start, false, steps + [call] + rest).owner;
    var added := r.out[|o.out|..];
    if Overdue(limits, o.pending, now) {
      assert GivenUp(added[0], o.epoch, o.pending[0]);
      assert IsDeadline(added[0]);
    }
  }

  // ---------------------------------------------------------------- every call ends

  /** Owner steps still to take, at most. */
  function Left(pc: OwnerPc): nat
  {
    match pc
    case Idle => 0
    case Receive(left, _) => 2 * left + 6
    case Fall(_, _, after) => 1 + Left(after)
    case CheckStatus(_) => 3
    case Send(_) => 2
    case SendFinish => 2
  }

  lemma {:induction false} OwnerProgresses(limits: Limits, s: System)
    requires s.owner.epoch in s.owner.admitted && !s.pc.Idle?
    ensures Left(OwnerRuns(limits, s).pc) < Left(s.pc)
  {
    hide ReceiveOne, Hold, PassThrough, Fallback;
    if s.pc.Receive? { ReceiveProgresses(limits, s); }
  }

  lemma {:induction false} ReceiveProgresses(limits: Limits, s: System)
    requires s.pc.Receive?
    ensures Left(ReceiveOne(limits, s).pc) < Left(s.pc)
  {
    hide AcceptAll;
    assert Left(Fall(BackendFailed, true, Receive(0, s.pc.goal))) == 7;
    if s.pc.left > 0 {
      var again := Receive(s.pc.left - 1, s.pc.goal);
      assert Left(Fall(BackendFailed, true, again)) == 1 + Left(again);
    }
    if s.pc.goal.ThenSubmit? { assert Left(Fall(WorkerBusy, false, CheckStatus(s.pc.goal.offer))) == 4; }
  }

  function OwnerSteps(steps: seq<AecWorker.Step>): nat
  {
    if steps == [] then 0
    else OwnerSteps(steps[..|steps| - 1]) + if steps[|steps| - 1].OwnerStep? then 1 else 0
  }

  lemma {:induction false} RunLeft(env: Env, limits: Limits, epoch: nat, start: nat, steps: seq<AecWorker.Step>, rest: seq<AecWorker.Step>)
    requires env.config.Valid() && OnlyRuns(rest)
    ensures var s := RunSystem(env, limits, epoch, start, false, steps);
            var t := RunSystem(env, limits, epoch, start, false, steps + rest);
            t.pc.Idle? || Left(t.pc) + OwnerSteps(rest) <= Left(s.pc)
    decreases |rest|
  {
    hide RunSystem, Inv, Settled, Exec;
    if rest == [] {
      assert steps + rest == steps;
    } else {
      var before, last := rest[..|rest| - 1], rest[|rest| - 1];
      RunLeft(env, limits, epoch, start, steps, before);
      assert steps + rest == steps + before + [last];
      RunOn(env, limits, epoch, start, steps + before, last);
      StepLeft(env, limits, RunSystem(env, limits, epoch, start, false, steps + before), last);
    }
  }

  lemma {:induction false} StepLeft(env: Env, limits: Limits, s: System, step: AecWorker.Step)
    requires Settled(env, s.adapter) && s.owner.epoch in s.owner.admitted
    requires step.OwnerStep? || step.WorkerStep? || step.WorkerDies?
    ensures var t := Exec(env, limits, s, step);
            if s.pc.Idle? then t.pc.Idle? else Left(t.pc) + (if step.OwnerStep? then 1 else 0) <= Left(s.pc)
  {
    hide OwnerRuns, Settled, Compute, Left;
    if step.OwnerStep? {
      if s.pc.Idle? { IdleStays(limits, s); } else { OwnerProgresses(limits, s); }
    }
    if step.WorkerStep? && s.worker.Took? { ComputeOwner(env, s); }
  }

  lemma {:induction false} IdleStays(limits: Limits, s: System)
    requires s.owner.epoch in s.owner.admitted && s.pc.Idle?
    ensures OwnerRuns(limits, s) == s
  {
  }

  /** No call of the owner waits for the worker: after that many steps of its own it
      is over, however the worker's steps fall between them. */
  lemma {:induction false} CallsEnd(env: Env, limits: Limits, epoch: nat, start: nat, steps: seq<AecWorker.Step>,
                                    call: AecWorker.Step, rest: seq<AecWorker.Step>)
    requires env.config.Valid() && OnlyRuns(rest)
    requires RunSystem(env, limits, epoch, start, false, steps).pc.Idle?
    requires OwnerSteps(rest) >= 2 * limits.queuedBlocks + 9
    ensures RunSystem(env, limits, epoch, start, false, steps + [call] + rest).pc.Idle?
  {
    hide RunSystem, Inv, Settled;
    RunOn(env, limits, epoch, start, steps, call);
    var s := RunSystem(env, limits, epoch, start, false, steps);
    CallLeft(env, limits, s, call);
    hide Exec, Left;
    RunLeft(env, limits, epoch, start, steps + [call], rest);
    OnlyIdleIsOver(RunSystem(env, limits, epoch, start, false, steps + [call] + rest).pc);
  }

  lemma {:induction false} OnlyIdleIsOver(pc: OwnerPc)
    ensures Left(pc) == 0 ==> pc.Idle?
  {
  }

  lemma {:induction false} CallLeft(env: Env, limits: Limits, s: System, call: AecWorker.Step)
    requires Settled(env, s.adapter) && s.owner.epoch in s.owner.admitted && s.pc.Idle?
    ensures Left(Exec(env, limits, s, call).pc) <= 2 * limits.queuedBlocks + 9
  {
    hide Settled, Compute;
    if call.WorkerStep? && s.worker.Took? { ComputeOwner(env, s); }
  }
}
