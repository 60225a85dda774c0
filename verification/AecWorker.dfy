/** The echo-canceller worker as a transition system. One owner and one worker
    thread share a bounded command mailbox, a bounded result mailbox, a fence
    counter only the owner writes, and the worker's running flag. Every step
    makes at most one shared access, so any interleaving of the two threads, and
    the worker's death at any point, is a sequence of these steps. The one
    exception is a fallback that also gives up the sender: it moves the fence and
    drops the sender in one step. Between the two a worker with nothing left to
    take would only wait. */
module AecWorker {
  import opened AudioBlocks
  import opened Outcomes
  import opened AecAdapter
  import opened AecOwner

  datatype Limits = Limits(queuedBlocks: nat, blockSamples: nat, pendingSamples: nat, deadlineMs: nat) {
    predicate Valid()
    {
      && 1 <= queuedBlocks <= 16
      && 1 <= blockSamples <= 3200
      && blockSamples <= pendingSamples <= 16000
      && 1 <= deadlineMs <= 5000
    }
  }

  datatype Job = Job(fence: nat, start: nat, mic: seq<Sample>, reference: Option<seq<Sample>>) {
    function End(): nat { start + |mic| }
  }

  datatype Command = Input(job: Job) | FinishInput

  datatype ResultBlock = ResultBlock(fence: nat, blocks: seq<Output>)

  datatype Offer = Offer(mic: seq<Sample>, reference: Option<seq<Sample>>, now: nat, defer: bool)

  /** What a poll is part of. */
  datatype Goal = PollOnly | ThenSubmit(offer: Offer) | ThenClose

  /** Where the owner is inside a call: about to receive a result, to fall back,
      to look at the worker's status, or to send. */
  datatype OwnerPc =
    | Idle
    | Receive(left: nat, goal: Goal)
    | Fall(reason: BypassReason, drop: bool, after: OwnerPc)
    | CheckStatus(offer: Offer)
    | Send(offer: Offer)
    | SendFinish

  /** Where the worker thread is: waiting for a command, holding one it has taken,
      about to compare a result's fence or to send it; then out of its loop with
      the result end dropped, with the command end dropped too, and released. */
  datatype WorkerPc =
    | Waiting
    | Took(command: Command)
    | Offering(result: ResultBlock)
    | Sending(result: ResultBlock)
    | Dropping
    | Leaving
    | Gone

  /** `heard` is what the adapter has accepted since its last reset; the last two
      flags record whether a job was ever refused by the adapter, or a result by
      the owner, and `wrapped` whether the fence ever ran out. */
  datatype System = System(
    owner: Owner, pc: OwnerPc, commands: seq<Command>, results: seq<ResultBlock>,
    worker: WorkerPc, active: nat, adapter: Adapter, heard: Stream,
    jobRefused: bool, resultRefused: bool, wrapped: bool)

  datatype Step =
    | CallPoll(now: nat)
    | CallSubmit(epoch: nat, start: nat, mic: seq<Sample>, reference: Option<seq<Sample>>, now: nat, defer: bool)
    | CallReset(epoch: nat, start: nat)
    | CallFinish(now: nat)
    | CallCancel
    | OwnerStep
    | WorkerStep
    | WorkerDies

  /** The worker's loop is still running. */
  predicate Looping(s: System) { !s.worker.Dropping? && !s.worker.Leaving? && !s.worker.Gone? }

  /** The command mailbox still has a receiver. */
  predicate Receiving(s: System) { !s.worker.Leaving? && !s.worker.Gone? }

  function Start(env: Env, epoch: nat, start: nat): System
  {
    System(Owner(epoch, start, 1, true, [], 0, 0, false, [], map[epoch := Stream(start, [])], start),
           Idle, [], [], Waiting, 1, New(env, 1, start), Stream(start, []), false, false, false)
  }

  // ---------------------------------------------------------------- owner

  function FallBack(s: System, reason: BypassReason): System
  {
    s.(owner := Fallback(s.owner, reason), wrapped := s.wrapped || s.owner.fence == U64_MAX)
  }

  /** Enter `poll`: refuse a clock that went backwards; expire the oldest
      original before looking at results. */
  function BeginPoll(limits: Limits, s: System, now: nat, goal: Goal): System
  {
    if now < s.owner.now then s
    else
      var o := s.owner;
      var receive := Receive(limits.queuedBlocks + 1, goal);
      var expired := o.pending != [] && now - o.pending[0].acceptedMs >= limits.deadlineMs;
      s.(owner := o.(now := now), pc := if expired then Fall(WorkerDeadline, false, receive) else receive)
  }

  predicate Offerable(limits: Limits, o: Owner, epoch: nat, start: nat, mic: seq<Sample>, reference: Option<seq<Sample>>)
  {
    && !o.closed && epoch == o.epoch && start == o.next
    && |mic| <= limits.blockSamples && start + |mic| <= U64_MAX
    && (reference.Some? ==> |reference.value| == |mic|)
  }

  /** What follows once the polling part of a call is over. */
  function AfterPoll(limits: Limits, s: System, goal: Goal): System
  {
    match goal
    case PollOnly => s.(pc := Idle)
    case ThenClose =>
      if s.owner.closed then s.(pc := Idle)
      else s.(owner := s.owner.(closed := true), pc := if s.owner.sender then SendFinish else Idle)
    case ThenSubmit(offer) =>
      if offer.mic == [] then s.(pc := Idle)
      else if s.owner.retained + |offer.mic| > limits.pendingSamples then
        s.(pc := if offer.defer then Idle else Fall(WorkerBusy, false, CheckStatus(offer)))
      else s.(pc := CheckStatus(offer))
  }

  /** Ask for the tail; the sender is gone afterwards whatever happens. */
  function SendFinishOne(limits: Limits, s: System): System
    requires s.pc.SendFinish?
  {
    var silent := s.(owner := s.owner.(sender := false));
    if !Receiving(s) || |s.commands| >= limits.queuedBlocks then silent.(pc := Fall(WorkerBusy, false, Idle))
    else silent.(commands := s.commands + [FinishInput], pc := Idle)
  }

  /** One `try_recv`, and the local work on what it returned. */
  function ReceiveOne(limits: Limits, s: System): System
    requires s.pc.Receive?
  {
    if s.pc.left == 0 then AfterPoll(limits, s, s.pc.goal)
    else
      var again := Receive(s.pc.left - 1, s.pc.goal);
      if s.results != [] then
        var result := s.results[0];
        var taken := s.(results := s.results[1..], pc := again);
        if result.fence != s.owner.fence then taken
        else
          var (owner, accepted) := AcceptAll(s.owner, result.blocks);
          if accepted then taken.(owner := owner)
          else taken.(owner := owner, resultRefused := true, pc := Fall(BackendFailed, true, again))
      else if Looping(s) then AfterPoll(limits, s, s.pc.goal)
      else s.(pc := Fall(BackendFailed, true, Receive(0, s.pc.goal)))
  }

  function LookAtStatus(s: System): System
    requires s.pc.CheckStatus? && s.owner.epoch in s.owner.admitted
  {
    if !s.owner.sender || s.worker.Gone? then s.(owner := PassThrough(s.owner, s.pc.offer.mic), pc := Idle)
    else s.(pc := Send(s.pc.offer))
  }

  function SendOne(limits: Limits, s: System): System
    requires s.pc.Send? && s.owner.epoch in s.owner.admitted
  {
    var offer := s.pc.offer;
    if !Receiving(s) then
      s.(owner := Hold(s.owner, offer.mic, offer.now, false), pc := Fall(BackendFailed, true, Idle))
    else if |s.commands| >= limits.queuedBlocks then
      if offer.defer then s.(pc := Idle)
      else s.(owner := Hold(s.owner, offer.mic, offer.now, false), pc := Fall(WorkerBusy, false, Idle))
    else
      s.(owner := Hold(s.owner, offer.mic, offer.now, true), pc := Idle,
         commands := s.commands + [Input(Job(s.owner.fence, s.owner.next, offer.mic, offer.reference))])
  }

  function FallOne(s: System): System
    requires s.pc.Fall?
  {
    var fallen := FallBack(s, s.pc.reason);
    fallen.(owner := fallen.owner.(sender := fallen.owner.sender && !s.pc.drop), pc := s.pc.after)
  }

  function OwnerRuns(limits: Limits, s: System): System
    requires s.owner.epoch in s.owner.admitted
  {
    match s.pc
    case Idle => s
    case Receive(_, _) => ReceiveOne(limits, s)
    case Fall(_, _, _) => FallOne(s)
    case CheckStatus(_) => LookAtStatus(s)
    case Send(_) => SendOne(limits, s)
    case SendFinish => SendFinishOne(limits, s)
  }

  // ---------------------------------------------------------------- worker

  /** What the adapter makes of one job; None is the error that ends the thread. */
  function RunJob(env: Env, a: Adapter, fence: nat, job: Job): (r: Option<Adapter>)
    requires Settled(env, a)
    ensures r.Some? ==> Settled(env, r.value)
    ensures r.Some? && job.reference.None? ==> r.value.submitted == r.value.end
  {
    var rendered := if job.reference.Some? then PushRender(env, a, fence, job.start, job.reference.value) else Accepted(a);
    if rendered.Refused? then None
    else
      var captured := PushCapture(env, rendered.adapter, fence, job.start, job.mic);
      if captured.Refused? then None
      else Some(if job.reference.None? then FlushReferenceWait(env, captured.adapter) else captured.adapter)
  }

  function Publish(s: System, active: nat, a: Adapter, heard: Stream): System
  {
    s.(active := active, adapter := a.(out := []), heard := heard,
       worker := if a.out == [] then Waiting else Offering(ResultBlock(active, a.out)))
  }

  function Exit(s: System): System { s.(worker := Dropping) }

  /** Load the fence and process the command taken; the native call is in here. */
  function Compute(env: Env, s: System): System
    requires s.worker.Took? && Settled(env, s.adapter)
  {
    var fence := s.owner.fence;
    match s.worker.command
    case FinishInput =>
      if s.active == fence then Publish(s, s.active, Finish(env, s.adapter), s.heard) else s.(worker := Waiting)
    case Input(job) =>
      if job.fence != fence then s.(worker := Waiting)
      else
        var reset := if s.active != fence then Reset(env, s.adapter, fence, job.start) else Accepted(s.adapter);
        if reset.Refused? then Exit(s).(jobRefused := true)
        else
          var ready := reset.adapter.(out := []);
          var heard := if s.active != fence then Stream(job.start, job.mic) else s.heard.(mic := s.heard.mic + job.mic);
          var done := RunJob(env, ready, fence, job);
          if done.None? then Exit(s).(jobRefused := true) else Publish(s, fence, done.value, heard)
  }

  function WorkerRuns(env: Env, limits: Limits, s: System): System
    requires Settled(env, s.adapter)
  {
    match s.worker
    case Waiting =>
      if s.commands != [] then s.(worker := Took(s.commands[0]), commands := s.commands[1..])
      else if s.owner.sender then s
      else Exit(s)
    case Took(_) => Compute(env, s)
    case Offering(result) => s.(worker := if result.fence != s.owner.fence then Waiting else Sending(result))
    case Sending(result) =>
      if |s.results| <= limits.queuedBlocks then s.(results := s.results + [result], worker := Waiting)
      else s.(worker := Offering(result))
    case Dropping => s.(worker := Leaving, commands := [])
    case Leaving => s.(worker := Gone)
    case Gone => s
  }

  // ---------------------------------------------------------------- the system

  /** One step; a call made while another is running, or refused, changes nothing. */
  function Exec(env: Env, limits: Limits, s: System, step: Step): System
    requires Settled(env, s.adapter) && s.owner.epoch in s.owner.admitted
  {
    match step
    case OwnerStep => OwnerRuns(limits, s)
    case WorkerStep => WorkerRuns(env, limits, s)
    case WorkerDies => if Looping(s) then Exit(s) else s
    case _ => if s.pc.Idle? then Begin(limits, s, step) else s
  }

  function Begin(limits: Limits, s: System, step: Step): System
    requires s.pc.Idle?
  {
    match step
    case CallPoll(now) => BeginPoll(limits, s, now, PollOnly)
    case CallSubmit(epoch, start, mic, reference, now, defer) =>
      if Offerable(limits, s.owner, epoch, start, mic, reference)
      then BeginPoll(limits, s, now, ThenSubmit(Offer(mic, reference, now, defer)))
      else s
    case CallReset(epoch, start) =>
      if s.owner.closed || epoch <= s.owner.epoch then s
      else s.(owner := Reroute(s.owner, epoch, start), wrapped := s.wrapped || s.owner.fence == U64_MAX)
    case CallFinish(now) => BeginPoll(limits, s, now, ThenClose)
    case CallCancel =>
      var fallen := FallBack(s, WorkerCancelled);
      fallen.(owner := fallen.owner.(closed := true, sender := false))
    case _ => s
  }
}
