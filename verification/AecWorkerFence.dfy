/** The echo-canceller worker past the end of its fence counter. Every fallback
    moves the fence; once the counter runs out the owner stops sending, but a
    further fallback brings an old fence back, and what was left in flight under
    it is then taken for current. Exactly then a job or a result is refused. */
module AecWorkerFence {
  import opened AudioBlocks
  import opened Outcomes
  import opened AecAdapter
  import opened AecOwner
  import opened AecWorker
  import opened AecWorkerRuns
  import AecAdapterRuns

  // ---------------------------------------------------------------- what is in flight

  ghost predicate Shaped(job: Job)
  {
    && job.mic != [] && job.End() <= U64_MAX
    && (job.reference.Some? ==> |job.reference.value| == |job.mic|)
  }

  /** Jobs wait in the order of their fences, none older than `from`. */
  ghost predicate Rising(q: seq<Command>, from: nat)
  {
    if q == [] then true
    else if q[0].Input? then from <= q[0].job.fence && Rising(q[1..], q[0].job.fence)
    else Rising(q[1..], from)
  }

  /** A request to finish comes last. */
  ghost predicate FinishLast(q: seq<Command>)
  {
    forall i :: 0 <= i < |q| && q[i].FinishInput? ==> i == |q| - 1
  }

  ghost predicate AllShaped(q: seq<Command>)
  {
    forall i :: 0 <= i < |q| && q[i].Input? ==> Shaped(q[i].job)
  }

  ghost predicate NoneEmpty(results: seq<ResultBlock>)
  {
    forall i :: 0 <= i < |results| ==> results[i].blocks != []
  }

  ghost predicate QueueOk(q: seq<Command>, active: nat, sender: bool)
  {
    && Rising(q, active) && AllShaped(q) && FinishLast(q)
    && (sender ==> forall i :: 0 <= i < |q| ==> q[i].Input?)
  }

  /** What holds of the mailboxes and the adapter even after the fence ran out. */
  ghost predicate Tidy(s: System)
  {
    && QueueOk(Queue(s), s.active, s.owner.sender)
    && (s.adapter.closed ==> Queue(s) == [] && !s.owner.sender)
    && s.adapter.refEnd <= s.adapter.end
    && NoneEmpty(s.results)
    && (s.worker.Offering? || s.worker.Sending? ==> s.worker.result.blocks != [])
  }

  lemma {:induction false} RisingWeakens(q: seq<Command>, from: nat, lower: nat)
    requires Rising(q, from) && lower <= from
    ensures Rising(q, lower)
    decreases |q|
  {
    if q != [] && !q[0].Input? { RisingWeakens(q[1..], from, lower); }
  }

  lemma {:induction false} RisingPush(q: seq<Command>, from: nat, c: Command)
    requires Rising(q, from)
    requires c.Input? ==> from <= c.job.fence && forall i :: 0 <= i < |q| && q[i].Input? ==> q[i].job.fence <= c.job.fence
    ensures Rising(q + [c], from)
    decreases |q|
  {
    if q == [] {
      assert ([] + [c])[1..] == [];
    } else {
      assert (q + [c])[1..] == q[1..] + [c];
      RisingPush(q[1..], if q[0].Input? then q[0].job.fence else from, c);
    }
  }

  /** Taking the oldest command away. */
  lemma {:induction false} QueueTail(q: seq<Command>, active: nat, sender: bool)
    requires QueueOk(q, active, sender) && q != []
    ensures QueueOk(q[1..], active, sender)
    ensures q[0].Input? ==> active <= q[0].job.fence && QueueOk(q[1..], q[0].job.fence, sender)
    ensures q[0].FinishInput? ==> q[1..] == []
  {
    var rest := q[1..];
    assert forall i :: 0 <= i < |rest| ==> rest[i] == q[i + 1];
    assert q[0].FinishInput? ==> |q| == 1;
    if q[0].Input? { RisingWeakens(rest, q[0].job.fence, active); }
  }

  // ---------------------------------------------------------------- every step

  /** The worker's side as it was, fewer results, and no new sender. */
  lemma {:induction false} OwnerOnly(s: System, t: System)
    requires Tidy(s) && t == s.(owner := t.owner, pc := t.pc, results := t.results, resultRefused := t.resultRefused, wrapped := t.wrapped)
    requires (t.owner.sender ==> s.owner.sender) && (t.results == s.results || (s.results != [] && t.results == s.results[1..]))
    ensures Tidy(t)
  {
    hide QueueOk, NoneEmpty;
    SenderGoes(Queue(s), s.active, s.owner.sender, t.owner.sender);
    if t.results != s.results { NoneEmptyTail(s.results); }
  }

  lemma {:induction false} SenderGoes(q: seq<Command>, active: nat, sender: bool, later: bool)
    requires QueueOk(q, active, sender) && (later ==> sender)
    ensures QueueOk(q, active, later)
  {
    hide Rising, AllShaped, FinishLast;
  }

  lemma {:induction false} NoneEmptyTail(results: seq<ResultBlock>)
    requires NoneEmpty(results) && results != []
    ensures NoneEmpty(results[1..])
  {
  }

  lemma {:induction false} AcceptAllKeepsSender(o: Owner, blocks: seq<Output>)
    ensures AcceptAll(o, blocks).0.sender == o.sender
    decreases |blocks|
  {
    if blocks != [] && Acceptable(o, blocks[0]) { AcceptAllKeepsSender(Accept(o, blocks[0]), blocks[1..]); }
  }

  lemma {:induction false} ReceiveTidy(limits: Limits, s: System)
    requires Tidy(s) && s.pc.Receive?
    ensures Tidy(ReceiveOne(limits, s))
  {
    hide Tidy, AcceptAll;
    if s.pc.left > 0 && s.results != [] { AcceptAllKeepsSender(s.owner, s.results[0].blocks); }
    OwnerOnly(s, ReceiveOne(limits, s));
  }

  /** A job goes behind the others with the newest fence. */
  lemma {:induction false} SendTidy(env: Env, limits: Limits, s: System)
    requires Inv(env, s, false) && Tidy(s) && s.pc.Send? && s.owner.epoch in s.owner.admitted
    ensures Tidy(SendOne(limits, s))
  {
    var t := SendOne(limits, s);
    if t.commands == s.commands {
      hide Tidy;
      OwnerOnly(s, t);
    } else {
      assert s.owner.sender && Shaped(t.commands[|s.commands|].job);
      NewestFence(env, s);
      assert Queue(t) == Queue(s) + [t.commands[|s.commands|]];
      hide Inv;
      RisingPush(Queue(s), s.active, t.commands[|s.commands|]);
    }
  }

  // While the owner can send, its fence is the newest.
  lemma {:induction false} NewestFence(env: Env, s: System)
    requires Inv(env, s, false) && s.owner.sender
    ensures s.active <= s.owner.fence
    ensures forall i :: 0 <= i < |Queue(s)| && Queue(s)[i].Input? ==> Queue(s)[i].job.fence <= s.owner.fence
  {
    InvFacts(env, s, false);
    hide BooksOk, PcOk, SentAll, AdapterOk, Flow, ResultsOk;
    var m :| PipeOk(s, false, m);
    assert forall i :: 0 <= i < |Queue(s)| && Queue(s)[i].Input? ==> JobOk(s.owner, Queue(s)[i].job);
  }

  lemma {:induction false} SendFinishTidy(env: Env, limits: Limits, s: System)
    requires Inv(env, s, false) && Tidy(s) && s.pc.SendFinish?
    ensures Tidy(SendFinishOne(limits, s))
  {
    var t := SendFinishOne(limits, s);
    assert s.owner.sender;
    hide Inv;
    if t.commands == s.commands {
      hide Tidy;
      OwnerOnly(s, t);
    } else {
      assert Queue(t) == Queue(s) + [FinishInput];
      RisingPush(Queue(s), s.active, FinishInput);
    }
  }

  lemma {:induction false} OwnerTidy(env: Env, limits: Limits, s: System)
    requires Inv(env, s, false) && Tidy(s) && s.owner.epoch in s.owner.admitted
    ensures Tidy(OwnerRuns(limits, s))
  {
    hide Inv, Tidy;
    match s.pc
    case Idle =>
    case Receive(_, _) => ReceiveTidy(limits, s);
    case Fall(_, _, _) => OwnerOnly(s, FallOne(s));
    case CheckStatus(_) => OwnerOnly(s, LookAtStatus(s));
    case Send(_) => SendTidy(env, limits, s);
    case SendFinish => SendFinishTidy(env, limits, s);
  }

  /** An accepted job leaves no reference beyond the microphone. */
  lemma {:induction false} JobLeavesTidy(env: Env, a: Adapter, fence: nat, job: Job)
    requires Settled(env, a) && a.refEnd <= a.end && Shaped(job) && RunJob(env, a, fence, job).Some?
    ensures var r := RunJob(env, a, fence, job).value; r.refEnd <= r.end && !r.closed && r.epoch == fence
  {
    hide PushReference, PushSamples, Settled, Bypass;
  }

  /** The command in hand is done with, and the adapter is as the job left it. */
  lemma {:induction false} PublishTidy(s: System, fence: nat, a: Adapter, heard: Stream)
    requires Tidy(s) && s.worker.Took? && (s.worker.command.Input? ==> s.worker.command.job.fence == fence)
    requires s.worker.command.FinishInput? ==> fence == s.active
    requires a.refEnd <= a.end && (a.closed ==> s.worker.command.FinishInput?)
    ensures Tidy(Publish(s, fence, a, heard))
  {
    assert Queue(s)[1..] == s.commands;
    QueueTail(Queue(s), s.active, s.owner.sender);
    hide QueueOk, Rising;
  }

  lemma {:induction false} InputTidy(env: Env, s: System)
    requires Tidy(s) && s.worker.Took? && Settled(env, s.adapter)
    requires s.worker.command.Input? && s.worker.command.job.fence == s.owner.fence
    ensures Tidy(Compute(env, s))
  {
    var job, fence := s.worker.command.job, s.owner.fence;
    assert Shaped(Queue(s)[0].job) && s.adapter.refEnd <= s.adapter.end;
    DeathTidy(s);
    hide Tidy, RunJob, Settled, Publish, Reset;
    var reset := if s.active != fence then Reset(env, s.adapter, fence, job.start) else Accepted(s.adapter);
    if reset.Accepted? {
      var ready := reset.adapter.(out := []);
      StillSettled(env, reset.adapter);
      if RunJob(env, ready, fence, job).Some? {
        JobLeavesTidy(env, ready, fence, job);
        var heard := if s.active != fence then Stream(job.start, job.mic) else s.heard.(mic := s.heard.mic + job.mic);
        PublishTidy(s, fence, RunJob(env, ready, fence, job).value, heard);
      } else {
        RefusedTidy(s);
      }
    } else {
      RefusedTidy(s);
    }
  }

  lemma {:induction false} StillSettled(env: Env, a: Adapter)
    requires Settled(env, a)
    ensures Settled(env, a.(out := []))
  {
  }

  lemma {:induction false} RefusedTidy(s: System)
    requires Tidy(s)
    ensures Tidy(Exit(s).(jobRefused := true))
  {
    DeathTidy(s);
    hide QueueOk;
  }

  lemma {:induction false} ComputeTidy(env: Env, s: System)
    requires Tidy(s) && s.worker.Took? && Settled(env, s.adapter)
    ensures Tidy(Compute(env, s))
  {
    if s.worker.command.FinishInput? {
      if s.active == s.owner.fence {
        assert Finish(env, s.adapter).refEnd <= Finish(env, s.adapter).end;
        hide Tidy, Finish, Settled;
        PublishTidy(s, s.active, Finish(env, s.adapter), s.heard);
      } else {
        SkipTidy(s);
      }
    } else if s.worker.command.job.fence == s.owner.fence {
      hide Tidy, Compute;
      InputTidy(env, s);
    } else {
      SkipTidy(s);
    }
  }

  lemma {:induction false} SkipTidy(s: System)
    requires Tidy(s) && s.worker.Took?
    ensures Tidy(s.(worker := Waiting))
  {
    assert Queue(s)[1..] == s.commands;
    QueueTail(Queue(s), s.active, s.owner.sender);
    hide QueueOk;
  }

  lemma {:induction false} WorkerTidy(env: Env, limits: Limits, s: System)
    requires Tidy(s) && Settled(env, s.adapter)
    ensures Tidy(WorkerRuns(env, limits, s))
  {
    if s.worker.Took? {
      hide Tidy, Compute;
      ComputeTidy(env, s);
    } else if s.worker.Sending? {
      hide QueueOk, Settled;
      SentTidy(s);
    } else {
      hide QueueOk, Settled, NoneEmpty;
      assert s.worker.Waiting? && s.commands != [] ==> [s.commands[0]] + s.commands[1..] == s.commands;
      NoQueue(s.active, s.owner.sender);
    }
  }

  lemma {:induction false} SentTidy(s: System)
    requires Tidy(s) && s.worker.Sending?
    ensures Tidy(s.(results := s.results + [s.worker.result], worker := Waiting))
    ensures Tidy(s.(worker := Offering(s.worker.result)))
  {
    hide QueueOk;
  }

  lemma {:induction false} NoQueue(active: nat, sender: bool)
    ensures QueueOk([], active, sender)
  {
  }

  lemma {:induction false} DeathTidy(s: System)
    requires Tidy(s)
    ensures Tidy(Exit(s))
  {
    if s.worker.Took? {
      QueueTail(Queue(s), s.active, s.owner.sender);
      assert Queue(s)[1..] == s.commands;
    }
    hide QueueOk;
  }

  lemma {:induction false} StepTidy(env: Env, limits: Limits, s: System, step: AecWorker.Step)
    requires Inv(env, s, false) && Tidy(s) && Settled(env, s.adapter) && s.owner.epoch in s.owner.admitted
    ensures Tidy(Exec(env, limits, s, step))
  {
    hide Inv, Tidy, OwnerRuns, WorkerRuns;
    match step
    case OwnerStep => OwnerTidy(env, limits, s);
    case WorkerStep => WorkerTidy(env, limits, s);
    case WorkerDies => if Looping(s) { DeathTidy(s); }
    case _ => if s.pc.Idle? { OwnerOnly(s, Begin(limits, s, step)); }
  }

  // One step past a run.
  lemma {:induction false} RunOn(env: Env, limits: Limits, epoch: nat, start: nat, steps: seq<AecWorker.Step>, step: AecWorker.Step)
    requires env.config.Valid()
    ensures var s := RunSystem(env, limits, epoch, start, false, steps);
            && Inv(env, s, false) && Settled(env, s.adapter) && s.owner.epoch in s.owner.admitted
            && RunSystem(env, limits, epoch, start, false, steps + [step]) == Exec(env, limits, s, step)
  {
    assert (steps + [step])[..|steps + [step]| - 1] == steps;
    InvFacts(env, RunSystem(env, limits, epoch, start, false, steps), false);
    hide Inv, Exec, Settled;
  }

  lemma {:induction false} StartTidy(env: Env, epoch: nat, start: nat)
    ensures Tidy(AecWorker.Start(env, epoch, start))
  {
  }

  lemma {:induction false} RunStart(env: Env, limits: Limits, epoch: nat, start: nat)
    requires env.config.Valid()
    ensures RunSystem(env, limits, epoch, start, false, []) == AecWorker.Start(env, epoch, start)
  {
    hide Inv, AecWorker.Start;
  }

  lemma {:induction false} EveryRunIsTidy(env: Env, limits: Limits, epoch: nat, start: nat, steps: seq<AecWorker.Step>)
    requires env.config.Valid()
    ensures Tidy(RunSystem(env, limits, epoch, start, false, steps))
  {
    hide Inv, Exec, Tidy, RunSystem, Settled, AecWorker.Start;
    if steps == [] {
      RunStart(env, limits, epoch, start);
      StartTidy(env, epoch, start);
    } else {
      var before, last := steps[..|steps| - 1], steps[|steps| - 1];
      assert before + [last] == steps;
      EveryRunIsTidy(env, limits, epoch, start, before);
      RunOn(env, limits, epoch, start, before, last);
      StepTidy(env, limits, RunSystem(env, limits, epoch, start, false, before), last);
    }
  }

  // ---------------------------------------------------------------- exactly when something is refused

  /** The owner is about to receive a result it takes for current and cannot use. */
  ghost predicate RefusesResult(s: System)
    requires s.pc.Receive? && s.results != []
  {
    s.results[0].fence == s.owner.fence && !AcceptAll(s.owner, s.results[0].blocks).1
  }

  /** In every run, a result about to be received is refused exactly when the fence
      has run out and come round to the result's own. */
  lemma {:induction false} ResultRefusedIff(env: Env, limits: Limits, epoch: nat, start: nat, steps: seq<AecWorker.Step>)
    requires env.config.Valid()
    requires var s := RunSystem(env, limits, epoch, start, false, steps);
             s.pc.Receive? && s.pc.left > 0 && s.results != []
    ensures var s := RunSystem(env, limits, epoch, start, false, steps);
            RefusesResult(s) <==> s.wrapped && s.results[0].fence == s.owner.fence
  {
    hide RunSystem, Inv, Tidy, RefusesResult;
    EveryRunIsTidy(env, limits, epoch, start, steps);
    ResultRefused(env, limits, RunSystem(env, limits, epoch, start, false, steps));
  }

  lemma {:induction false} NotRefused(env: Env, s: System)
    requires Inv(env, s, false) && !s.wrapped
    ensures !s.jobRefused && !s.resultRefused
  {
    hide BooksOk, PcOk, SentAll, AdapterOk, Flow, CommandsOk, ResultsOk;
  }

  lemma {:induction false} ResultRefused(env: Env, limits: Limits, s: System)
    requires Inv(env, s, false) && Tidy(s) && s.pc.Receive? && s.pc.left > 0 && s.results != []
    ensures RefusesResult(s) <==> s.wrapped && s.results[0].fence == s.owner.fence
  {
    assert s.results[0].blocks != [] && (s.wrapped ==> s.owner.pending == []);
    hide Inv, Tidy;
    if RefusesResult(s) && !s.wrapped {
      ReceiveKeeps(env, s, false, limits);
      assert ReceiveOne(limits, s).resultRefused;
      NotRefused(env, ReceiveOne(limits, s));
      assert false;
    }
  }

  /** The worker is about to process a job it takes for current and cannot run. */
  ghost predicate RefusesJob(env: Env, s: System)
    requires s.worker.Took? && Settled(env, s.adapter)
  {
    Compute(env, s).worker.Dropping?
  }

  /** In every run, a job in hand is refused exactly when the fence has run out and
      come round to the job's own, which the adapter still has, and the job does not
      start where the adapter's audio ends. */
  lemma {:induction false} JobRefusedIff(env: Env, limits: Limits, epoch: nat, start: nat, steps: seq<AecWorker.Step>)
    requires env.config.Valid()
    requires var s := RunSystem(env, limits, epoch, start, false, steps); s.worker.Took? && s.worker.command.Input?
    ensures var s := RunSystem(env, limits, epoch, start, false, steps);
            var job := s.worker.command.job;
            && Settled(env, s.adapter)
            && (RefusesJob(env, s) <==>
                  s.wrapped && job.fence == s.owner.fence == s.active && job.start != s.adapter.end)
  {
    hide RunSystem, Inv, Tidy, Settled, RefusesJob;
    var s := RunSystem(env, limits, epoch, start, false, steps);
    EveryRunIsTidy(env, limits, epoch, start, steps);
    InvFacts(env, s, false);
    JobIsWrapped(env, s);
    AdapterFollows(env, s);
    if s.worker.command.job.fence == s.owner.fence {
      CurrentJob(env, s);
    } else {
      OtherJob(env, s);
    }
  }

  lemma {:induction false} JobIsWrapped(env: Env, s: System)
    requires Inv(env, s, false) && s.worker.Took? && s.owner.epoch in s.owner.admitted && Settled(env, s.adapter)
    ensures RefusesJob(env, s) ==> s.wrapped
  {
    hide Inv, RunJob, Reset, Finish, Settled;
    ComputeKeeps(env, s, false);
    if RefusesJob(env, s) && !s.wrapped {
      assert Compute(env, s).jobRefused;
      NotRefused(env, Compute(env, s));
      assert false;
    }
  }

  lemma {:induction false} AdapterFollows(env: Env, s: System)
    requires Inv(env, s, false)
    ensures s.adapter.epoch == s.active
  {
    hide BooksOk, PcOk, SentAll, PipeOk, AecAdapterRuns.Faithful;
  }

  lemma {:induction false} OtherJob(env: Env, s: System)
    requires s.worker.Took? && s.worker.command.Input? && Settled(env, s.adapter)
    requires s.worker.command.job.fence != s.owner.fence
    ensures !RefusesJob(env, s)
  {
    hide RunJob, Reset, Finish, Settled;
  }

  lemma {:induction false} JobInHand(s: System)
    requires Tidy(s) && s.worker.Took? && s.worker.command.Input?
    ensures var job := s.worker.command.job;
            Shaped(job) && s.active <= job.fence && !s.adapter.closed && s.adapter.refEnd <= s.adapter.end
  {
    assert Queue(s)[0] == s.worker.command;
  }

  /** Under its own fence a job is accepted unless it does not continue what the
      adapter heard. */
  lemma {:induction false} CurrentJob(env: Env, s: System)
    requires Tidy(s) && s.worker.Took? && s.worker.command.Input? && Settled(env, s.adapter)
    requires s.worker.command.job.fence == s.owner.fence && s.adapter.epoch == s.active
    ensures RefusesJob(env, s) <==> s.active == s.owner.fence && s.worker.command.job.start != s.adapter.end
  {
    hide Tidy, Reset, RunJob, Settled, Finish;
    var job, fence := s.worker.command.job, s.owner.fence;
    JobInHand(s);
    var reset := if s.active != fence then Reset(env, s.adapter, fence, job.start) else Accepted(s.adapter);
    var ready := reset.adapter.(out := []);
    StillSettled(env, reset.adapter);
    if ready.end == job.start {
      RunJobAccepts(env, ready, fence, job);
    } else {
      RunJobNeedsItsPlace(env, ready, fence, job);
    }
  }

  lemma {:induction false} RunJobNeedsItsPlace(env: Env, a: Adapter, fence: nat, job: Job)
    requires Settled(env, a) && a.end != job.start
    ensures RunJob(env, a, fence, job).None?
  {
    hide PushReference, PushSamples, Settled, Bypass;
  }

  // ---------------------------------------------------------------- runs in which that happens

  /** The fence after n more fallbacks. */
  function Turned(fence: nat, n: nat): nat
  {
    if n == 0 then fence
    else if Turned(fence, n - 1) == U64_MAX then 0
    else Turned(fence, n - 1) + 1
  }

  /** The counter comes round. */
  lemma {:induction false} TurnedIs(fence: nat, n: nat)
    requires fence <= U64_MAX
    ensures Turned(fence, n) <= U64_MAX
    ensures fence + n <= U64_MAX ==> Turned(fence, n) == fence + n
    ensures U64_MAX < fence + n <= 2 * U64_MAX + 1 ==> Turned(fence, n) == fence + n - (U64_MAX + 1)
  {
    if n > 0 { TurnedIs(fence, n - 1); }
  }

  function Cancels(n: nat): (r: seq<AecWorker.Step>)
    ensures |r| == n
  {
    if n == 0 then [] else Cancels(n - 1) + [CallCancel]
  }

  /** Cancelling n times changes the fence and nothing in flight. */
  lemma {:induction false} CancelledAgain(env: Env, limits: Limits, epoch: nat, start: nat, steps: seq<AecWorker.Step>, n: nat)
    requires env.config.Valid()
    requires var s := RunSystem(env, limits, epoch, start, false, steps); s.pc.Idle? && s.owner.fence <= U64_MAX
    ensures var s := RunSystem(env, limits, epoch, start, false, steps);
            var t := RunSystem(env, limits, epoch, start, false, steps + Cancels(n));
            && SameWorker(s, t) && t.pc.Idle? && t.owner.fence == Turned(s.owner.fence, n) && t.owner.now == s.owner.now
            && (n > 0 ==> t.owner.pending == [])
  {
    hide RunSystem, Inv;
    if n == 0 {
      assert steps + Cancels(0) == steps;
    } else {
      CancelledAgain(env, limits, epoch, start, steps, n - 1);
      RunOn(env, limits, epoch, start, steps + Cancels(n - 1), CallCancel);
      assert steps + Cancels(n) == steps + Cancels(n - 1) + [CallCancel];
    }
  }

  /** One sample without a reference. */
  function Offers(o: Owner): seq<AecWorker.Step>
  {
    [CallSubmit(o.epoch, o.next, [0.0], None, 0, false), OwnerStep, OwnerStep, OwnerStep]
  }

  ghost predicate TakesOne(limits: Limits, s: System)
  {
    && s.pc.Idle? && s.results == [] && Looping(s)
    && s.owner.sender && !s.owner.closed && s.owner.now == 0 && s.owner.next + 1 <= U64_MAX
    && (s.owner.pending != [] ==> s.owner.pending[0].acceptedMs == 0)
    && |s.commands| < limits.queuedBlocks && s.owner.retained + 1 <= limits.pendingSamples
    && limits.blockSamples >= 1 && limits.deadlineMs >= 1
  }

  /** Undisturbed, an offered sample is held and its job sent. */
  lemma {:induction false} OfferedOne(env: Env, limits: Limits, epoch: nat, start: nat, steps: seq<AecWorker.Step>)
    requires env.config.Valid() && TakesOne(limits, RunSystem(env, limits, epoch, start, false, steps))
    ensures var s := RunSystem(env, limits, epoch, start, false, steps);
            && s.owner.epoch in s.owner.admitted
            && RunSystem(env, limits, epoch, start, false, steps + Offers(s.owner))
               == s.(owner := Hold(s.owner, [0.0], 0, true),
                     commands := s.commands + [Input(Job(s.owner.fence, s.owner.next, [0.0], None))])
  {
    hide RunSystem, Inv, Settled;
    var s := RunSystem(env, limits, epoch, start, false, steps);
    var offer := Offers(s.owner);
    var a := steps + [offer[0]];
    var b := a + [OwnerStep];
    var c := b + [OwnerStep];
    assert steps + offer == c + [OwnerStep];
    RunOn(env, limits, epoch, start, steps, offer[0]);
    RunOn(env, limits, epoch, start, a, OwnerStep);
    RunOn(env, limits, epoch, start, b, OwnerStep);
    RunOn(env, limits, epoch, start, c, OwnerStep);
    OfferedSteps(env, limits, s);
  }

  lemma {:induction false} OfferedSteps(env: Env, limits: Limits, s: System)
    requires TakesOne(limits, s) && s.owner.epoch in s.owner.admitted && Settled(env, s.adapter)
    ensures var offer := Offer([0.0], None, 0, false);
            var a := Exec(env, limits, s, CallSubmit(s.owner.epoch, s.owner.next, [0.0], None, 0, false));
            && a == s.(pc := Receive(limits.queuedBlocks + 1, ThenSubmit(offer)))
            && var b := Exec(env, limits, a, OwnerStep);
            && b == s.(pc := CheckStatus(offer))
            && var c := Exec(env, limits, b, OwnerStep);
            && c == s.(pc := Send(offer))
            && Exec(env, limits, c, OwnerStep)
               == s.(owner := Hold(s.owner, [0.0], 0, true),
                     commands := s.commands + [Input(Job(s.owner.fence, s.owner.next, [0.0], None))])
  {
    hide Settled, Hold;
  }

  /** A first job without a reference is published at once. */
  lemma {:induction false} LoneJob(env: Env, start: nat)
    requires env.config.Valid() && start + 1 <= U64_MAX
    ensures var a := New(env, 1, start);
            && Settled(env, a)
            && var r := RunJob(env, a, 1, Job(1, start, [0.0], None));
            r.Some? && r.value.out != []
  {
    var a := New(env, 1, start);
    var pushed := a.(raw := [0.0], end := start + 1);
    assert [0.0][..0] == [] && a.raw + [0.0] == pushed.raw;
    assert PushSamples(env, a, []) == a;
    assert PushSamples(env, a, [0.0]) == PushSample(env, a, 0.0) == PumpLoop(env, pushed, false);
  }

  lemma {:induction false} LoneResult(env: Env, s: System)
    requires env.config.Valid() && Settled(env, s.adapter)
    requires s.active == s.owner.fence == 1 && s.adapter == New(env, 1, s.heard.origin) && s.heard.origin + 1 <= U64_MAX
    requires s.worker == Took(Input(Job(1, s.heard.origin, [0.0], None)))
    ensures var t := Compute(env, s);
            && t.worker.Offering? && t.worker.result.fence == 1
            && t.owner == s.owner && t.pc == s.pc && t.results == s.results
  {
    LoneJob(env, s.heard.origin);
    assert s.adapter.(out := []) == s.adapter;
    hide RunJob, New, Settled;
  }

  /** Handing the sample over: the worker takes the job, runs it, and sends the
      result. */
  lemma {:induction false} SentOne(env: Env, limits: Limits, epoch: nat, start: nat) returns (steps: seq<AecWorker.Step>)
    requires env.config.Valid() && limits.Valid() && start + 1 <= U64_MAX
    ensures var s := RunSystem(env, limits, epoch, start, false, steps);
            s.pc.Idle? && s.owner.fence == 1 && s.owner.now == 0 && |s.results| == 1 && s.results[0].fence == 1
  {
    hide RunSystem, Inv, Settled, Compute;
    var first := AecWorker.Start(env, epoch, start);
    RunStart(env, limits, epoch, start);
    OfferedOne(env, limits, epoch, start, []);
    var a := [] + Offers(first.owner);
    var b := a + [WorkerStep];
    var c := b + [WorkerStep];
    var d := c + [WorkerStep];
    steps := d + [WorkerStep];
    RunOn(env, limits, epoch, start, a, WorkerStep);
    RunOn(env, limits, epoch, start, b, WorkerStep);
    LoneResult(env, RunSystem(env, limits, epoch, start, false, b));
    RunOn(env, limits, epoch, start, c, WorkerStep);
    RunOn(env, limits, epoch, start, d, WorkerStep);
  }

  /** With any backend and limits there is a run in which a result is refused: its
      fence is cancelled away, the counter comes round, and the owner, holding
      nothing, receives it as current. */
  lemma {:induction false} ResultCanBeRefused(env: Env, limits: Limits, epoch: nat, start: nat) returns (steps: seq<AecWorker.Step>)
    requires env.config.Valid() && limits.Valid() && start + 1 <= U64_MAX
    ensures RunSystem(env, limits, epoch, start, false, steps).resultRefused
  {
    hide RunSystem, Inv, Settled, Cancels;
    var sent := SentOne(env, limits, epoch, start);
    CancelledAgain(env, limits, epoch, start, sent, U64_MAX + 1);
    TurnedIs(1, U64_MAX + 1);
    hide Turned;
    var round := sent + Cancels(U64_MAX + 1);
    RunOn(env, limits, epoch, start, round, CallPoll(0));
    RunOn(env, limits, epoch, start, round + [CallPoll(0)], OwnerStep);
    steps := round + [CallPoll(0)] + [OwnerStep];
    EveryRunIsTidy(env, limits, epoch, start, round + [CallPoll(0)]);
    hide Tidy;
    HoldingNothing(limits, RunSystem(env, limits, epoch, start, false, round + [CallPoll(0)]));
    hide ReceiveOne;
  }

  lemma {:induction false} HoldingNothing(limits: Limits, s: System)
    requires Tidy(s) && s.pc.Receive? && s.pc.left > 0 && s.results != []
    requires s.owner.pending == [] && s.results[0].fence == s.owner.fence
    ensures ReceiveOne(limits, s).resultRefused
  {
    assert s.results[0].blocks != [];
  }

  /** Two samples offered, the first of them in the worker's hand. */
  lemma {:induction false} SentTwo(env: Env, limits: Limits, epoch: nat, start: nat) returns (steps: seq<AecWorker.Step>)
    requires env.config.Valid() && limits.Valid() && limits.pendingSamples >= 2 && start + 2 <= U64_MAX
    ensures var s := RunSystem(env, limits, epoch, start, false, steps);
            && s.pc.Idle? && s.owner.fence == s.active == 1 && s.adapter.end == start
            && s.worker == Took(Input(Job(1, start, [0.0], None)))
            && s.commands == [Input(Job(1, start + 1, [0.0], None))]
  {
    hide RunSystem, Inv, Settled, Compute;
    var first := AecWorker.Start(env, epoch, start);
    RunStart(env, limits, epoch, start);
    OfferedOne(env, limits, epoch, start, []);
    var a := [] + Offers(first.owner);
    var b := a + [WorkerStep];
    RunOn(env, limits, epoch, start, a, WorkerStep);
    var s := RunSystem(env, limits, epoch, start, false, b);
    OfferedOne(env, limits, epoch, start, b);
    steps := b + Offers(s.owner);
  }

  /** The first job is skipped under another fence; then the counter comes round
      and the second is in the worker's hand. */
  lemma {:induction false} SkippedOne(env: Env, limits: Limits, epoch: nat, start: nat) returns (steps: seq<AecWorker.Step>)
    requires env.config.Valid() && limits.Valid() && limits.pendingSamples >= 2 && start + 2 <= U64_MAX
    ensures var s := RunSystem(env, limits, epoch, start, false, steps);
            && s.owner.fence == s.active == 1 && s.adapter.end == start
            && s.worker == Took(Input(Job(1, start + 1, [0.0], None)))
  {
    hide RunSystem, Inv, Settled, Cancels, RunJob, Reset, Finish;
    var sent := SentTwo(env, limits, epoch, start);
    RunOn(env, limits, epoch, start, sent, CallCancel);
    RunOn(env, limits, epoch, start, sent + [CallCancel], WorkerStep);
    var skipped := sent + [CallCancel] + [WorkerStep];
    CancelledAgain(env, limits, epoch, start, skipped, U64_MAX);
    TurnedIs(2, U64_MAX);
    hide Turned;
    RunOn(env, limits, epoch, start, skipped + Cancels(U64_MAX), WorkerStep);
    steps := skipped + Cancels(U64_MAX) + [WorkerStep];
  }

  /** With any backend, and limits that let two samples be held, there is a run in
      which a job is refused. */
  lemma {:induction false} JobCanBeRefused(env: Env, limits: Limits, epoch: nat, start: nat) returns (steps: seq<AecWorker.Step>)
    requires env.config.Valid() && limits.Valid() && limits.pendingSamples >= 2 && start + 2 <= U64_MAX
    ensures RunSystem(env, limits, epoch, start, false, steps).jobRefused
  {
    hide RunSystem, Inv, Settled, Compute, Tidy;
    var before := SkippedOne(env, limits, epoch, start);
    var s := RunSystem(env, limits, epoch, start, false, before);
    RunOn(env, limits, epoch, start, before, WorkerStep);
    EveryRunIsTidy(env, limits, epoch, start, before);
    AdapterFollows(env, s);
    CurrentJob(env, s);
    RefusalIsNoted(env, s);
    steps := before + [WorkerStep];
  }

  lemma {:induction false} RefusalIsNoted(env: Env, s: System)
    requires s.worker.Took? && Settled(env, s.adapter) && RefusesJob(env, s)
    ensures Compute(env, s).jobRefused
  {
    hide RunJob, Reset, Finish, Settled;
  }
}
