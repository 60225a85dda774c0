/** What happens to audio offered to the echo worker: its queues are bounded, an
    offer is admitted or put off, never dropped, and the worker is called busy
    only when there is no room. */
module AecWorkerAdmission {
  import opened AudioBlocks
  import opened Outcomes
  import opened AecAdapter
  import opened AecOwner
  import opened AecWorker
  import opened AecAdapterRuns
  import opened AecAdapterTally
  import opened AecWorkerRuns
  import opened AecWorkerFence
  import opened AecWorkerDeadline

  // ---------------------------------------------------------------- bounds

  /** An offer on its way fits a block, and once checked fits what may be held. */
  ghost predicate PcFits(limits: Limits, o: Owner, pc: OwnerPc)
    decreases pc
  {
    match pc
    case Receive(_, goal) => goal.ThenSubmit? ==> |goal.offer.mic| <= limits.blockSamples
    case Fall(_, _, after) =>
      !after.Fall? && !after.Send? && PcFits(limits, o.(retained := 0), after)
    case CheckStatus(offer) => o.retained + |offer.mic| <= limits.pendingSamples
    case Send(offer) => o.retained + |offer.mic| <= limits.pendingSamples
    case _ => true
  }

  ghost predicate OwnerFits(limits: Limits, o: Owner, pc: OwnerPc)
  {
    o.retained <= limits.pendingSamples && PcFits(limits, o, pc)
  }

  ghost predicate Bounded(limits: Limits, s: System)
  {
    && OwnerFits(limits, s.owner, s.pc)
    && |s.commands| <= limits.queuedBlocks && |s.results| <= limits.queuedBlocks + 1
  }

  lemma {:induction false} AcceptAllShrinks(o: Owner, blocks: seq<Output>)
    ensures var r := AcceptAll(o, blocks).0;
            r.retained <= o.retained && r.next == o.next && r.admitted == o.admitted && r.epoch == o.epoch && r.sender == o.sender
    decreases |blocks|
  {
    if blocks != [] && Acceptable(o, blocks[0]) { AcceptAllShrinks(Accept(o, blocks[0]), blocks[1..]); }
  }

  // With less held, what fitted still fits.
  lemma {:induction false} FitsWithLess(limits: Limits, o: Owner, r: Owner, pc: OwnerPc)
    requires PcFits(limits, o, pc) && r.retained <= o.retained
    ensures PcFits(limits, r, pc)
    decreases pc
  {
    if pc.Fall? {
      assert PcFits(limits, o.(retained := 0), pc.after);
      FitsWithLess(limits, o.(retained := 0), r.(retained := 0), pc.after);
    }
  }

  lemma {:induction false} AfterPollFits(limits: Limits, s: System, goal: Goal)
    requires limits.Valid() && s.owner.retained <= limits.pendingSamples
    requires goal.ThenSubmit? ==> |goal.offer.mic| <= limits.blockSamples
    ensures var t := AfterPoll(limits, s, goal); OwnerFits(limits, t.owner, t.pc)
  {
    if goal.ThenSubmit? {
      assert PcFits(limits, s.owner.(retained := 0), CheckStatus(goal.offer));
      assert PcFits(limits, s.owner, Fall(WorkerBusy, false, CheckStatus(goal.offer)));
    }
  }

  lemma {:induction false} ReceiveFits(limits: Limits, s: System)
    requires limits.Valid() && OwnerFits(limits, s.owner, s.pc) && s.pc.Receive?
    ensures var t := ReceiveOne(limits, s); OwnerFits(limits, t.owner, t.pc)
  {
    hide AfterPoll, AcceptAll;
    AfterPollFits(limits, s, s.pc.goal);
    assert PcFits(limits, s.owner.(retained := 0), Receive(0, s.pc.goal));
    assert PcFits(limits, s.owner, Fall(BackendFailed, true, Receive(0, s.pc.goal)));
    if s.pc.left > 0 && s.results != [] {
      var again := Receive(s.pc.left - 1, s.pc.goal);
      AcceptAllShrinks(s.owner, s.results[0].blocks);
      var r := AcceptAll(s.owner, s.results[0].blocks).0;
      assert PcFits(limits, r, again) && PcFits(limits, r.(retained := 0), again);
      assert PcFits(limits, r, Fall(BackendFailed, true, again));
    }
  }

  lemma {:induction false} OwnerStepFits(limits: Limits, s: System)
    requires limits.Valid() && OwnerFits(limits, s.owner, s.pc) && s.owner.epoch in s.owner.admitted
    ensures var t := OwnerRuns(limits, s); OwnerFits(limits, t.owner, t.pc)
  {
    hide ReceiveOne, RawBlocks;
    match s.pc
    case Receive(_, _) => ReceiveFits(limits, s);
    case Fall(_, _, after) =>
      FitsWithLess(limits, s.owner.(retained := 0), FallOne(s).owner, after);
      hide PcFits;
    case Send(_) => SendFits(limits, s);
    case _ =>
  }

  lemma {:induction false} SendFits(limits: Limits, s: System)
    requires OwnerFits(limits, s.owner, s.pc) && s.pc.Send? && s.owner.epoch in s.owner.admitted
    ensures var t := SendOne(limits, s); OwnerFits(limits, t.owner, t.pc)
  {
  }

  lemma {:induction false} OwnerMailboxes(limits: Limits, s: System)
    requires s.owner.epoch in s.owner.admitted
    ensures var t := OwnerRuns(limits, s);
            && |t.results| <= |s.results|
            && |t.commands| <= (if |s.commands| < limits.queuedBlocks then |s.commands| + 1 else |s.commands|)
            && (!s.pc.Send? && !s.pc.SendFinish? ==> t.commands == s.commands)
  {
    hide Fallback, Hold, PassThrough, ReceiveOne;
    if s.pc.Receive? { ReceiveLeaves(limits, s); }
  }

  lemma {:induction false} WorkerMailboxes(env: Env, limits: Limits, s: System)
    requires Settled(env, s.adapter)
    ensures var t := WorkerRuns(env, limits, s);
            && t.owner == s.owner && t.pc == s.pc && |t.commands| <= |s.commands|
            && (t.results == s.results || (|s.results| <= limits.queuedBlocks && |t.results| == |s.results| + 1))
  {
    hide Compute, Settled;
    if s.worker.Took? { ComputeOwner(env, s); ComputeCommands(env, s); }
  }

  lemma {:induction false} ComputeCommands(env: Env, s: System)
    requires s.worker.Took? && Settled(env, s.adapter)
    ensures Compute(env, s).commands == s.commands
  {
    hide RunJob, Finish, Reset, Settled;
  }

  lemma {:induction false} BeginFits(limits: Limits, s: System, step: AecWorker.Step)
    requires limits.Valid() && OwnerFits(limits, s.owner, s.pc) && s.pc.Idle?
    ensures var t := Begin(limits, s, step);
            OwnerFits(limits, t.owner, t.pc) && t.commands == s.commands && t.results == s.results
  {
    if step.CallSubmit? {
      var offer := Offer(step.mic, step.reference, step.now, step.defer);
      var receive := Receive(limits.queuedBlocks + 1, ThenSubmit(offer));
      if |step.mic| <= limits.blockSamples {
        assert PcFits(limits, s.owner.(now := step.now), receive) && PcFits(limits, s.owner.(now := step.now, retained := 0), receive);
        assert PcFits(limits, s.owner.(now := step.now), Fall(WorkerDeadline, false, receive));
      }
    } else if step.CallPoll? || step.CallFinish? {
      var goal := if step.CallPoll? then PollOnly else ThenClose;
      var receive := Receive(limits.queuedBlocks + 1, goal);
      assert PcFits(limits, s.owner.(now := step.now, retained := 0), receive);
      assert PcFits(limits, s.owner.(now := step.now), Fall(WorkerDeadline, false, receive));
    }
  }

  lemma {:induction false} StepBounded(env: Env, limits: Limits, s: System, step: AecWorker.Step)
    requires limits.Valid() && Bounded(limits, s) && Settled(env, s.adapter) && s.owner.epoch in s.owner.admitted
    ensures Bounded(limits, Exec(env, limits, s, step))
  {
    hide OwnerRuns, WorkerRuns, Settled, Begin, OwnerFits;
    match step
    case OwnerStep => OwnerStepFits(limits, s); OwnerMailboxes(limits, s);
    case WorkerStep => WorkerMailboxes(env, limits, s);
    case WorkerDies =>
    case _ => if s.pc.Idle? { BeginFits(limits, s, step); }
  }

  /** In every run the originals held, the commands and the results stay within
      their limits, and `retained` counts the samples held. */
  lemma {:induction false} QueuesAreBounded(env: Env, limits: Limits, epoch: nat, start: nat, steps: seq<AecWorker.Step>)
    requires env.config.Valid() && limits.Valid()
    ensures var s := RunSystem(env, limits, epoch, start, false, steps);
            && Unused(s.owner.pending) == s.owner.retained <= limits.pendingSamples
            && |s.commands| <= limits.queuedBlocks && |s.results| <= limits.queuedBlocks + 1
  {
    hide RunSystem, Bounded;
    EveryAdmittedSampleOnce(env, limits, epoch, start, steps);
    EveryRunIsBounded(env, limits, epoch, start, steps);
    BoundedMeans(limits, RunSystem(env, limits, epoch, start, false, steps));
  }

  lemma {:induction false} BoundedMeans(limits: Limits, s: System)
    requires Bounded(limits, s)
    ensures s.owner.retained <= limits.pendingSamples && |s.commands| <= limits.queuedBlocks && |s.results| <= limits.queuedBlocks + 1
  {
  }

  lemma {:induction false} EveryRunIsBounded(env: Env, limits: Limits, epoch: nat, start: nat, steps: seq<AecWorker.Step>)
    requires env.config.Valid() && limits.Valid()
    ensures Bounded(limits, RunSystem(env, limits, epoch, start, false, steps))
  {
    hide Inv, Exec, RunSystem, Settled, AecWorker.Start, Bounded;
    if steps == [] {
      RunStart(env, limits, epoch, start);
      StartBounded(env, limits, epoch, start);
    } else {
      var before, last := steps[..|steps| - 1], steps[|steps| - 1];
      assert before + [last] == steps;
      EveryRunIsBounded(env, limits, epoch, start, before);
      RunOn(env, limits, epoch, start, before, last);
      StepBounded(env, limits, RunSystem(env, limits, epoch, start, false, before), last);
    }
  }

  lemma {:induction false} StartBounded(env: Env, limits: Limits, epoch: nat, start: nat)
    ensures Bounded(limits, AecWorker.Start(env, epoch, start))
  {
  }

  // ---------------------------------------------------------------- one offer

  /** Nothing is admitted yet. */
  ghost predicate Offered(s: Owner, o: Owner) { o.epoch == s.epoch && o.next == s.next && o.admitted == s.admitted }

  /** The offer is admitted, at the end of its stream. */
  ghost predicate Taken(s: Owner, o: Owner, mic: seq<Sample>)
  {
    && o.epoch == s.epoch && o.next == s.next + |mic| && s.epoch in s.admitted
    && o.admitted == s.admitted[s.epoch := s.admitted[s.epoch].(mic := s.admitted[s.epoch].mic + mic)]
  }

  /** It fits what may be held and the mailbox. */
  ghost predicate Room(limits: Limits, s: System, offer: Offer)
  {
    s.owner.retained + |offer.mic| <= limits.pendingSamples && |s.commands| < limits.queuedBlocks
  }

  ghost predicate Waiting(s: System, t: System, offer: Offer, found: Offer)
  {
    && found == offer && Offered(s.owner, t.owner)
    && t.owner.retained <= s.owner.retained && |t.commands| <= |s.commands|
  }

  /** The offer has been dealt with: taken, or put off for want of room. */
  ghost predicate Dealt(limits: Limits, s: System, offer: Offer, o: Owner)
  {
    Taken(s.owner, o, offer.mic) || (Offered(s.owner, o) && (offer.mic == [] || (offer.defer && !Room(limits, s, offer))))
  }

  /** How far an offer made in s has come in t. */
  ghost predicate Submitting(limits: Limits, s: System, offer: Offer, t: System)
  {
    match t.pc
    case Idle => Dealt(limits, s, offer, t.owner)
    case Receive(_, goal) => goal.ThenSubmit? && Waiting(s, t, offer, goal.offer)
    case CheckStatus(found) => found.mic != [] && Waiting(s, t, offer, found)
    case Send(found) => found.mic != [] && Waiting(s, t, offer, found)
    case SendFinish => false
    case Fall(reason, _, after) =>
      && (reason == WorkerDeadline || reason == BackendFailed
          || (reason == WorkerBusy && !Room(limits, s, offer) && !offer.defer))
      && match after
         case Idle => Taken(s.owner, t.owner, offer.mic)
         case Receive(_, goal) => goal.ThenSubmit? && Waiting(s, t, offer, goal.offer)
         case CheckStatus(found) => found.mic != [] && Waiting(s, t, offer, found)
         case _ => false
  }

  lemma {:induction false} AfterPollSubmits(limits: Limits, s: System, offer: Offer, t: System)
    requires Waiting(s, t, offer, offer)
    ensures Submitting(limits, s, offer, AfterPoll(limits, t, ThenSubmit(offer)))
  {
  }

  lemma {:induction false} ReceiveSubmits(limits: Limits, s: System, offer: Offer, t: System)
    requires Submitting(limits, s, offer, t) && t.pc.Receive?
    ensures Submitting(limits, s, offer, ReceiveOne(limits, t))
  {
    hide AcceptAll, AfterPoll;
    AfterPollSubmits(limits, s, offer, t);
    hide Submitting;
    assert t.pc.goal == ThenSubmit(offer);
    if t.pc.left > 0 && t.results != [] {
      AcceptAllShrinks(t.owner, t.results[0].blocks);
      ReceivedOne(limits, s, offer, t);
    } else if t.pc.left > 0 && !Looping(t) {
      Disconnected(limits, s, offer, t);
    }
  }

  lemma {:induction false} ReceivedOne(limits: Limits, s: System, offer: Offer, t: System)
    requires t.pc.Receive? && t.pc.left > 0 && t.results != [] && t.pc.goal == ThenSubmit(offer) && Waiting(s, t, offer, offer)
    ensures Submitting(limits, s, offer, ReceiveOne(limits, t))
  {
    AcceptAllShrinks(t.owner, t.results[0].blocks);
    hide AcceptAll, AfterPoll;
  }

  lemma {:induction false} Disconnected(limits: Limits, s: System, offer: Offer, t: System)
    requires t.pc.Receive? && t.pc.left > 0 && t.results == [] && !Looping(t) && t.pc.goal == ThenSubmit(offer) && Waiting(s, t, offer, offer)
    ensures Submitting(limits, s, offer, ReceiveOne(limits, t))
  {
  }

  lemma {:induction false} OwnerSubmits(limits: Limits, s: System, offer: Offer, t: System)
    requires Submitting(limits, s, offer, t) && t.owner.epoch in t.owner.admitted
    ensures Submitting(limits, s, offer, OwnerRuns(limits, t))
  {
    hide ReceiveOne, FallOne, LookAtStatus, SendOne, Submitting;
    match t.pc
    case Idle =>
    case Receive(_, _) => ReceiveSubmits(limits, s, offer, t);
    case Fall(_, _, _) => FallSubmits(limits, s, offer, t);
    case CheckStatus(_) => LookSubmits(limits, s, offer, t);
    case Send(_) => SendSubmits(limits, s, offer, t);
    case SendFinish => NotFinishing(limits, s, offer, t);
  }

  lemma {:induction false} NotFinishing(limits: Limits, s: System, offer: Offer, t: System)
    requires Submitting(limits, s, offer, t)
    ensures !t.pc.SendFinish?
  {
  }

  lemma {:induction false} FallSubmits(limits: Limits, s: System, offer: Offer, t: System)
    requires Submitting(limits, s, offer, t) && t.pc.Fall?
    ensures Submitting(limits, s, offer, FallOne(t))
  {
    hide RawBlocks, Room;
  }

  lemma {:induction false} LookSubmits(limits: Limits, s: System, offer: Offer, t: System)
    requires Submitting(limits, s, offer, t) && t.pc.CheckStatus? && t.owner.epoch in t.owner.admitted
    ensures Submitting(limits, s, offer, LookAtStatus(t))
  {
    hide Room;
  }

  lemma {:induction false} SendSubmits(limits: Limits, s: System, offer: Offer, t: System)
    requires Submitting(limits, s, offer, t) && t.pc.Send? && t.owner.epoch in t.owner.admitted
    ensures Submitting(limits, s, offer, SendOne(limits, t))
  {
    HoldTakes(s.owner, t.owner, offer.mic, offer.now, true);
    HoldTakes(s.owner, t.owner, offer.mic, offer.now, false);
    hide Hold, Taken;
  }

  lemma {:induction false} HoldTakes(s: Owner, o: Owner, mic: seq<Sample>, now: nat, sent: bool)
    requires Offered(s, o) && o.epoch in o.admitted
    ensures Taken(s, Hold(o, mic, now, sent), mic)
  {
  }

  lemma {:induction false} StepSubmits(env: Env, limits: Limits, s: System, offer: Offer, t: System, step: AecWorker.Step)
    requires Submitting(limits, s, offer, t) && t.owner.epoch in t.owner.admitted && Settled(env, t.adapter)
    requires step.OwnerStep? || step.WorkerStep? || step.WorkerDies?
    ensures Submitting(limits, s, offer, Exec(env, limits, t, step))
  {
    hide OwnerRuns, WorkerRuns, Settled;
    if step.OwnerStep? { OwnerSubmits(limits, s, offer, t); }
    if step.WorkerStep? { WorkerMailboxes(env, limits, t); }
  }

  // ---------------------------------------------------------------- what is said meanwhile

  /** Everything published from s to t is the adapter's, or has this reason too. */
  ghost predicate Utters(s: Owner, t: Owner, kinds: set<OutputKind>)
  {
    s.out <= t.out && Says(t.out[|s.out|..], kinds)
  }

  lemma {:induction false} AddsMore(s: Owner, m: Owner, t: Owner, kinds: set<OutputKind>)
    requires Utters(s, m, kinds) && Utters(m, t, kinds)
    ensures Utters(s, t, kinds)
  {
    assert t.out[|s.out|..] == m.out[|s.out|..] + t.out[|m.out|..];
  }

  lemma {:induction false} OwnerSays(limits: Limits, s: System, kinds: set<OutputKind>)
    requires OnTime(limits, s) && s.owner.epoch in s.owner.admitted && SAYABLE <= kinds
    requires s.pc.Fall? ==> Raw(s.pc.reason) in kinds
    ensures Utters(s.owner, OwnerRuns(limits, s).owner, kinds)
  {
    hide OnTime, Utters, ReceiveOne, FallOne, LookAtStatus, SendOne;
    var r := OwnerRuns(limits, s);
    match s.pc
    case Receive(_, _) => ReceiveSays(limits, s, kinds);
    case Fall(reason, _, _) => FallSays(s, kinds);
    case CheckStatus(_) => LookSays(s, kinds);
    case Send(_) => SendSays(limits, s, kinds);
    case _ => NothingSaid(s.owner, r.owner, kinds);
  }

  lemma {:induction false} NothingSaid(s: Owner, t: Owner, kinds: set<OutputKind>)
    requires t.out == s.out
    ensures Utters(s, t, kinds)
  {
  }

  lemma {:induction false} ReceiveSays(limits: Limits, s: System, kinds: set<OutputKind>)
    requires OnTime(limits, s) && s.pc.Receive? && SAYABLE <= kinds
    ensures Utters(s.owner, ReceiveOne(limits, s).owner, kinds)
  {
    hide AcceptAll, AfterPoll, Aging, Overdue, PcNow;
    AfterPollSame(limits, s, s.pc.goal);
    if s.pc.left > 0 && s.results != [] { AcceptAllAges(limits, s.owner, s.results[0].blocks); }
  }

  lemma {:induction false} FallSays(s: System, kinds: set<OutputKind>)
    requires s.pc.Fall? && Raw(s.pc.reason) in kinds
    ensures Utters(s.owner, FallOne(s).owner, kinds)
  {
    RawBlocksAre(s.owner.epoch, s.owner.pending, s.pc.reason);
    assert FallOne(s).owner.out[|s.owner.out|..] == RawBlocks(s.owner.epoch, s.owner.pending, s.pc.reason);
  }

  lemma {:induction false} LookSays(s: System, kinds: set<OutputKind>)
    requires s.pc.CheckStatus? && s.owner.epoch in s.owner.admitted && SAYABLE <= kinds
    ensures Utters(s.owner, LookAtStatus(s).owner, kinds)
  {
  }

  lemma {:induction false} SendSays(limits: Limits, s: System, kinds: set<OutputKind>)
    requires s.pc.Send? && s.owner.epoch in s.owner.admitted
    ensures Utters(s.owner, SendOne(limits, s).owner, kinds)
  {
  }

  /** What may be said during this call. */
  ghost function CallKinds(limits: Limits, s: System, offer: Offer): set<OutputKind>
  {
    SAYABLE + {Raw(WorkerDeadline)} + if Room(limits, s, offer) || offer.defer then {} else {Raw(WorkerBusy)}
  }

  lemma {:induction false} StepSays(env: Env, limits: Limits, s: System, offer: Offer, t: System, step: AecWorker.Step)
    requires Submitting(limits, s, offer, t) && OnTime(limits, t) && t.owner.epoch in t.owner.admitted && Settled(env, t.adapter)
    requires step.OwnerStep? || step.WorkerStep? || step.WorkerDies?
    ensures Utters(t.owner, Exec(env, limits, t, step).owner, CallKinds(limits, s, offer))
  {
    if step.OwnerStep? {
      OwnerSays(limits, t, CallKinds(limits, s, offer));
    } else {
      hide WorkerRuns, Settled;
      if step.WorkerStep? { WorkerMailboxes(env, limits, t); }
      assert t.owner.out[|t.owner.out|..] == [];
    }
  }

  // ---------------------------------------------------------------- the whole call

  /** Something was published since because the worker was busy. */
  ghost predicate CalledBusy(s: Owner, t: Owner)
  {
    exists i :: |s.out| <= i < |t.out| && t.out[i].kind == Raw(WorkerBusy)
  }

  lemma {:induction false} OfferBegins(limits: Limits, s: System, call: AecWorker.Step, now: nat)
    requires Polls(limits, s, call, now) && call.CallSubmit?
    ensures Submitting(limits, s, OfferOf(call), Begin(limits, s, call))
    ensures Begin(limits, s, call).owner.out == s.owner.out
  {
  }

  function OfferOf(call: AecWorker.Step): Offer
    requires call.CallSubmit?
  {
    Offer(call.mic, call.reference, call.now, call.defer)
  }

  lemma {:induction false} RunSubmits(env: Env, limits: Limits, epoch: nat, start: nat, steps: seq<AecWorker.Step>,
                                      call: AecWorker.Step, now: nat, rest: seq<AecWorker.Step>)
    requires env.config.Valid() && limits.Valid() && OnlyRuns(rest) && call.CallSubmit?
    requires Polls(limits, RunSystem(env, limits, epoch, start, false, steps), call, now)
    ensures var s := RunSystem(env, limits, epoch, start, false, steps);
            var t := RunSystem(env, limits, epoch, start, false, steps + [call] + rest);
            && Submitting(limits, s, OfferOf(call), t)
            && Utters(s.owner, t.owner, CallKinds(limits, s, OfferOf(call)))
    decreases |rest|
  {
    hide RunSystem, Inv, Settled, Submitting, Utters, OnTime, CallKinds;
    var s := RunSystem(env, limits, epoch, start, false, steps);
    if rest == [] {
      assert steps + [call] + rest == steps + [call];
      RunOn(env, limits, epoch, start, steps, call);
      OfferBegins(limits, s, call, now);
      NothingSaid(s.owner, Begin(limits, s, call).owner, CallKinds(limits, s, OfferOf(call)));
    } else {
      hide Polls, Exec;
      var before, last := rest[..|rest| - 1], rest[|rest| - 1];
      RunSubmits(env, limits, epoch, start, steps, call, now, before);
      assert steps + [call] + rest == steps + [call] + before + [last];
      RunOn(env, limits, epoch, start, steps + [call] + before, last);
      EveryRunIsOnTime(env, limits, epoch, start, steps + [call] + before);
      var m := RunSystem(env, limits, epoch, start, false, steps + [call] + before);
      StepSubmits(env, limits, s, OfferOf(call), m, last);
      StepSays(env, limits, s, OfferOf(call), m, last);
      AddsMore(s.owner, m.owner, Exec(env, limits, m, last).owner, CallKinds(limits, s, OfferOf(call)));
    }
  }

  /** In every run, whatever the worker does meanwhile: an offer is admitted whole, in
      its place, or put off untouched; put off only if it asked for that and there
      was no room, or is empty. Nothing is published for a busy worker unless there
      was no room and the offer could not wait. */
  lemma {:induction false} OffersAreDealtWith(env: Env, limits: Limits, epoch: nat, start: nat, steps: seq<AecWorker.Step>,
                                              call: AecWorker.Step, now: nat, rest: seq<AecWorker.Step>)
    requires env.config.Valid() && limits.Valid() && OnlyRuns(rest) && call.CallSubmit?
    requires Polls(limits, RunSystem(env, limits, epoch, start, false, steps), call, now)
    requires RunSystem(env, limits, epoch, start, false, steps + [call] + rest).pc.Idle?
    ensures var s := RunSystem(env, limits, epoch, start, false, steps);
            var r := RunSystem(env, limits, epoch, start, false, steps + [call] + rest).owner;
            && Dealt(limits, s, OfferOf(call), r) && s.owner.out <= r.out
            && (CalledBusy(s.owner, r) ==> !call.defer && !Room(limits, s, OfferOf(call)))
  {
    RunSubmits(env, limits, epoch, start, steps, call, now, rest);
    hide *;
    SubmitEnds(limits, RunSystem(env, limits, epoch, start, false, steps), OfferOf(call),
               RunSystem(env, limits, epoch, start, false, steps + [call] + rest));
  }

  lemma {:induction false} SubmitEnds(limits: Limits, s: System, offer: Offer, t: System)
    requires Submitting(limits, s, offer, t) && t.pc.Idle? && Utters(s.owner, t.owner, CallKinds(limits, s, offer))
    ensures Dealt(limits, s, offer, t.owner) && s.owner.out <= t.owner.out
    ensures CalledBusy(s.owner, t.owner) ==> !offer.defer && !Room(limits, s, offer)
  {
    hide Room, Taken, Offered;
    if CalledBusy(s.owner, t.owner) {
      var i :| |s.owner.out| <= i < |t.owner.out| && t.owner.out[i].kind == Raw(WorkerBusy);
      assert t.owner.out[i] == t.owner.out[|s.owner.out|..][i - |s.owner.out|];
    }
  }

  // ---------------------------------------------------------------- after the end

  /** No offer is on its way. */
  ghost predicate NoOffer(pc: OwnerPc)
  {
    match pc
    case Idle => true
    case SendFinish => true
    case Receive(_, goal) => !goal.ThenSubmit?
    case Fall(_, _, after) => after.Idle? || (after.Receive? && !after.goal.ThenSubmit?)
    case _ => false
  }

  lemma {:induction false} ClosedStep(env: Env, limits: Limits, s: System, step: AecWorker.Step)
    requires s.owner.closed && NoOffer(s.pc) && Settled(env, s.adapter) && s.owner.epoch in s.owner.admitted
    ensures var t := Exec(env, limits, s, step); t.owner.closed && NoOffer(t.pc) && Offered(s.owner, t.owner)
  {
    hide WorkerRuns, Settled, ReceiveOne;
    if step.WorkerStep? { WorkerMailboxes(env, limits, s); }
    if step.OwnerStep? && s.pc.Receive? { ClosedReceive(limits, s); }
  }

  lemma {:induction false} ClosedReceive(limits: Limits, s: System)
    requires s.owner.closed && NoOffer(s.pc) && s.pc.Receive?
    ensures var t := ReceiveOne(limits, s); t.owner.closed && NoOffer(t.pc) && Offered(s.owner, t.owner)
  {
    if s.pc.left > 0 && s.results != [] {
      AcceptAllShrinks(s.owner, s.results[0].blocks);
      AcceptAllClosed(s.owner, s.results[0].blocks);
    }
    hide AcceptAll;
  }

  lemma {:induction false} AcceptAllClosed(o: Owner, blocks: seq<Output>)
    ensures AcceptAll(o, blocks).0.closed == o.closed
    decreases |blocks|
  {
    if blocks != [] && Acceptable(o, blocks[0]) { AcceptAllClosed(Accept(o, blocks[0]), blocks[1..]); }
  }

  /** Once finished, cancelled or out of fences, and between calls, nothing is ever
      admitted again and the route never changes. */
  lemma {:induction false} ClosedForGood(env: Env, limits: Limits, epoch: nat, start: nat, steps: seq<AecWorker.Step>, more: seq<AecWorker.Step>)
    requires env.config.Valid()
    requires var s := RunSystem(env, limits, epoch, start, false, steps); s.owner.closed && s.pc.Idle?
    ensures var s := RunSystem(env, limits, epoch, start, false, steps);
            var t := RunSystem(env, limits, epoch, start, false, steps + more);
            && t.owner.closed && NoOffer(t.pc)
            && t.owner.epoch == s.owner.epoch && t.owner.next == s.owner.next && t.owner.admitted == s.owner.admitted
    decreases |more|
  {
    hide RunSystem, Inv, Settled, Exec;
    if more == [] {
      assert steps + more == steps;
    } else {
      var before, last := more[..|more| - 1], more[|more| - 1];
      ClosedForGood(env, limits, epoch, start, steps, before);
      assert steps + more == steps + before + [last];
      RunOn(env, limits, epoch, start, steps + before, last);
      ClosedStep(env, limits, RunSystem(env, limits, epoch, start, false, steps + before), last);
    }
  }

  // ---------------------------------------------------------------- finishing and cancelling

  /** Between calls a closed owner has given up its end of the command mailbox. */
  ghost predicate Hushed(s: System) { s.owner.closed && !s.pc.SendFinish? ==> !s.owner.sender }

  lemma {:induction false} StepHushed(env: Env, limits: Limits, s: System, step: AecWorker.Step)
    requires Hushed(s) && PcOk(s, s.pc) && Settled(env, s.adapter) && s.owner.epoch in s.owner.admitted
    ensures var t := Exec(env, limits, s, step); Hushed(t) && (t.pc.SendFinish? ==> t.owner.closed)
  {
    hide WorkerRuns, Settled, ReceiveOne, Hold, PassThrough;
    if step.WorkerStep? { WorkerMailboxes(env, limits, s); }
    if step.OwnerStep? && s.pc.Receive? { ReceiveHushed(limits, s); }
    if step.OwnerStep? && (s.pc.CheckStatus? || s.pc.Send?) { AdmitHushed(limits, s); }
  }

  lemma {:induction false} ReceiveHushed(limits: Limits, s: System)
    requires Hushed(s) && s.pc.Receive?
    ensures var t := ReceiveOne(limits, s); Hushed(t) && (t.pc.SendFinish? ==> t.owner.closed)
  {
    if s.pc.left > 0 && s.results != [] {
      AcceptAllShrinks(s.owner, s.results[0].blocks);
      AcceptAllClosed(s.owner, s.results[0].blocks);
    }
    hide AcceptAll;
  }

  lemma {:induction false} AdmitHushed(limits: Limits, s: System)
    requires Hushed(s) && (s.pc.CheckStatus? || s.pc.Send?) && s.owner.epoch in s.owner.admitted
    ensures var t := OwnerRuns(limits, s); Hushed(t) && !t.pc.SendFinish?
  {
  }

  /** While the worker runs and a finished owner still holds originals, the request
      to finish is on its way or has been carried out. */
  ghost predicate Asked(s: System)
  {
    !s.wrapped && !s.owner.sender && s.owner.pending != [] && Looping(s) && !s.pc.Fall? ==>
      FinishInput in Queue(s) || s.adapter.closed
  }

  lemma {:induction false} OwnerAsked(limits: Limits, s: System)
    requires Asked(s) && PcOk(s, s.pc) && s.owner.epoch in s.owner.admitted
    ensures Asked(OwnerRuns(limits, s))
  {
    hide ReceiveOne;
    if s.pc.Receive? { ReceiveAsked(limits, s); }
    if s.pc.SendFinish? { SendFinishAsked(limits, s); }
  }

  lemma {:induction false} SendFinishAsked(limits: Limits, s: System)
    requires s.pc.SendFinish?
    ensures Asked(SendFinishOne(limits, s))
  {
    var t := SendFinishOne(limits, s);
    if t.pc.Idle? { assert t.commands[|s.commands|] == FinishInput; }
  }

  lemma {:induction false} ReceiveAsked(limits: Limits, s: System)
    requires Asked(s) && s.pc.Receive?
    ensures Asked(ReceiveOne(limits, s))
  {
    ReceiveLeaves(limits, s);
    AfterPollSame(limits, s, s.pc.goal);
    hide AcceptAll, AfterPoll;
    if s.pc.left > 0 && s.results != [] {
      AcceptAllShrinks(s.owner, s.results[0].blocks);
      AcceptAllHolds(s.owner, s.results[0].blocks);
    }
  }

  lemma {:induction false} AcceptAllHolds(o: Owner, blocks: seq<Output>)
    ensures o.pending == [] ==> AcceptAll(o, blocks).0.pending == []
    decreases |blocks|
  {
  }

  lemma {:induction false} WorkerAsked(env: Env, limits: Limits, s: System)
    requires Asked(s) && Inv(env, s, false) && Settled(env, s.adapter) && s.owner.epoch in s.owner.admitted
    ensures Asked(WorkerRuns(env, limits, s))
  {
    hide Compute, Settled, Inv;
    if s.worker.Took? {
      ComputeAsked(env, s);
    } else if s.worker.Waiting? && s.commands != [] {
      assert [s.commands[0]] + s.commands[1..] == s.commands;
    }
  }

  lemma {:induction false} ComputeAsked(env: Env, s: System)
    requires Asked(s) && Inv(env, s, false) && s.worker.Took? && Settled(env, s.adapter) && s.owner.epoch in s.owner.admitted
    ensures Asked(Compute(env, s))
  {
    if !s.wrapped { TakenFacts(env, s); }
    hide Inv, RunJob, Reset, Settled, Finish;
    ComputeOwner(env, s);
    ComputeCommands(env, s);
    if FinishInput in Queue(s) && s.worker.command.Input? {
      assert FinishInput in s.commands;
    }
  }

  /** A request to finish comes last; under another fence than the adapter's nothing
      of the current one is held any more. */
  lemma {:induction false} TakenFacts(env: Env, s: System)
    requires Inv(env, s, false) && !s.wrapped && s.worker.Took? && s.owner.epoch in s.owner.admitted
    ensures !s.adapter.closed
    ensures s.worker.command.FinishInput? && s.active != s.owner.fence && !s.pc.Fall? ==> s.owner.pending == []
  {
    hide AdapterOk, SentAll, PcOk, Balanced;
    var m :| PipeOk(s, false, m);
    assert Queue(s)[0] == s.worker.command;
    if s.worker.command.FinishInput? && s.active != s.owner.fence && !s.pc.Fall? {
      assert s.commands == [] by { assert |Queue(s)| == 1; }
      assert Queue(s) == [FinishInput] && Queue(s)[1..] == [];
      assert JobsTile(Queue(s)[1..], s.owner.fence, m, s.owner.tail) && m == s.owner.tail;
      assert m == Front(s.owner.pending, s.owner.tail);
      if s.owner.pending != [] { FrontBefore(s.owner, s.owner.tail, false); }
    }
  }

  lemma {:induction false} FrontBefore(o: Owner, end: nat, pure: bool)
    requires Balanced(o, end, pure) && o.pending != []
    ensures Front(o.pending, o.tail) < end
  {
    ChainEnds(o.pending[1..], o.pending[0].End(), end);
  }

  lemma {:induction false} ChainEnds(pending: seq<Pending>, from: nat, end: nat)
    requires Chain(pending, from, end)
    ensures from <= end
    decreases |pending|
  {
    if pending != [] { ChainEnds(pending[1..], pending[0].End(), end); }
  }

  lemma {:induction false} StepAsked(env: Env, limits: Limits, s: System, step: AecWorker.Step)
    requires Asked(s) && Inv(env, s, false) && Settled(env, s.adapter) && s.owner.epoch in s.owner.admitted
    ensures Asked(Exec(env, limits, s, step))
  {
    assert PcOk(s, s.pc);
    hide Inv, OwnerRuns, WorkerRuns, Settled, PcOk;
    match step
    case OwnerStep => OwnerAsked(limits, s);
    case WorkerStep => WorkerAsked(env, limits, s);
    case WorkerDies =>
    case _ =>
  }

  ghost predicate Ending(s: System) { Hushed(s) && Asked(s) && (s.pc.SendFinish? ==> s.owner.closed) }

  lemma {:induction false} EveryRunEnds(env: Env, limits: Limits, epoch: nat, start: nat, steps: seq<AecWorker.Step>)
    requires env.config.Valid()
    ensures Ending(RunSystem(env, limits, epoch, start, false, steps))
  {
    hide Inv, Exec, RunSystem, Settled, Hushed, Asked, PcOk, AecWorker.Start;
    if steps == [] {
      RunStart(env, limits, epoch, start);
      StartEnding(env, epoch, start);
    } else {
      var before, last := steps[..|steps| - 1], steps[|steps| - 1];
      assert before + [last] == steps;
      EveryRunEnds(env, limits, epoch, start, before);
      RunOn(env, limits, epoch, start, before, last);
      PcIsOk(env, RunSystem(env, limits, epoch, start, false, before));
      StepHushed(env, limits, RunSystem(env, limits, epoch, start, false, before), last);
      StepAsked(env, limits, RunSystem(env, limits, epoch, start, false, before), last);
    }
  }

  lemma {:induction false} PcIsOk(env: Env, s: System)
    requires Inv(env, s, false)
    ensures PcOk(s, s.pc)
  {
    hide BooksOk, SentAll, AdapterOk, PipeOk, PcOk;
  }

  lemma {:induction false} StartEnding(env: Env, epoch: nat, start: nat)
    ensures Ending(AecWorker.Start(env, epoch, start))
  {
  }

  /** How far a finish has come. */
  ghost predicate Finishing(t: System)
  {
    match t.pc
    case Receive(_, goal) => goal.ThenClose?
    case Fall(_, _, after) => (after.Receive? && after.goal.ThenClose?) || (after.Idle? && t.owner.closed)
    case Idle => t.owner.closed
    case SendFinish => t.owner.closed
    case _ => false
  }

  lemma {:induction false} StepFinishes(env: Env, limits: Limits, t: System, step: AecWorker.Step)
    requires Finishing(t) && Settled(env, t.adapter) && t.owner.epoch in t.owner.admitted
    requires step.OwnerStep? || step.WorkerStep? || step.WorkerDies?
    ensures Finishing(Exec(env, limits, t, step))
  {
    hide WorkerRuns, Settled, ReceiveOne;
    if step.WorkerStep? { WorkerMailboxes(env, limits, t); }
    if step.OwnerStep? && t.pc.Receive? { ReceiveFinishes(limits, t); }
  }

  lemma {:induction false} ReceiveFinishes(limits: Limits, t: System)
    requires Finishing(t) && t.pc.Receive?
    ensures Finishing(ReceiveOne(limits, t))
  {
    hide AcceptAll;
  }

  lemma {:induction false} RunFinishes(env: Env, limits: Limits, epoch: nat, start: nat, steps: seq<AecWorker.Step>, now: nat, rest: seq<AecWorker.Step>)
    requires env.config.Valid() && OnlyRuns(rest)
    requires Polls(limits, RunSystem(env, limits, epoch, start, false, steps), CallFinish(now), now)
    ensures Finishing(RunSystem(env, limits, epoch, start, false, steps + [CallFinish(now)] + rest))
    decreases |rest|
  {
    hide RunSystem, Inv, Settled;
    if rest == [] {
      assert steps + [CallFinish(now)] + rest == steps + [CallFinish(now)];
      RunOn(env, limits, epoch, start, steps, CallFinish(now));
    } else {
      hide Polls, Exec, Finishing;
      var before, last := rest[..|rest| - 1], rest[|rest| - 1];
      RunFinishes(env, limits, epoch, start, steps, now, before);
      assert steps + [CallFinish(now)] + rest == steps + [CallFinish(now)] + before + [last];
      RunOn(env, limits, epoch, start, steps + [CallFinish(now)] + before, last);
      StepFinishes(env, limits, RunSystem(env, limits, epoch, start, false, steps + [CallFinish(now)] + before), last);
    }
  }

  /** A finish, once it returns, has closed the stream for good and given up the
      mailbox; if originals are still held and the worker runs, it has been asked to
      finish them, or has. */
  lemma {:induction false} FinishIsAskedFor(env: Env, limits: Limits, epoch: nat, start: nat, steps: seq<AecWorker.Step>, now: nat, rest: seq<AecWorker.Step>)
    requires env.config.Valid() && OnlyRuns(rest)
    requires Polls(limits, RunSystem(env, limits, epoch, start, false, steps), CallFinish(now), now)
    requires RunSystem(env, limits, epoch, start, false, steps + [CallFinish(now)] + rest).pc.Idle?
    ensures var t := RunSystem(env, limits, epoch, start, false, steps + [CallFinish(now)] + rest);
            && t.owner.closed && !t.owner.sender
            && (!t.wrapped && t.owner.pending != [] && Looping(t) ==> FinishInput in Queue(t) || t.adapter.closed)
  {
    hide *;
    RunFinishes(env, limits, epoch, start, steps, now, rest);
    EveryRunEnds(env, limits, epoch, start, steps + [CallFinish(now)] + rest);
    EndingMeans(RunSystem(env, limits, epoch, start, false, steps + [CallFinish(now)] + rest));
  }

  lemma {:induction false} EndingMeans(t: System)
    requires Finishing(t) && Ending(t) && t.pc.Idle?
    ensures t.owner.closed && !t.owner.sender
    ensures !t.wrapped && t.owner.pending != [] && Looping(t) ==> FinishInput in Queue(t) || t.adapter.closed
  {
  }

  /** A cancel publishes every original held, in order, and closes the stream at once. */
  lemma {:induction false} CancelReleases(env: Env, limits: Limits, epoch: nat, start: nat, steps: seq<AecWorker.Step>)
    requires env.config.Valid() && RunSystem(env, limits, epoch, start, false, steps).pc.Idle?
    ensures var s := RunSystem(env, limits, epoch, start, false, steps).owner;
            var t := RunSystem(env, limits, epoch, start, false, steps + [CallCancel]).owner;
            && t.closed && !t.sender && t.pending == [] && |t.out| == |s.out| + |s.pending| && s.out <= t.out
            && forall i :: 0 <= i < |s.pending| ==>
                 var p := s.pending[i];
                 t.out[|s.out| + i] == Output(s.epoch, p.From(), p.samples[p.used..], Raw(WorkerCancelled))
  {
    hide RunSystem, Inv, Settled, RawBlocks;
    RunOn(env, limits, epoch, start, steps, CallCancel);
    var s := RunSystem(env, limits, epoch, start, false, steps).owner;
    RawBlocksAre(s.epoch, s.pending, WorkerCancelled);
  }

  // ---------------------------------------------------------------- a worker that is gone

  ghost predicate Silent(o: Owner) { o.pending == [] && !o.sender }

  /** A poll begun after the worker left its loop, with fewer results waiting than it
      will look at. */
  ghost predicate Noticing(t: System)
  {
    && !Looping(t)
    && match t.pc
       case Idle => Silent(t.owner)
       case Receive(left, goal) => goal.PollOnly? && (|t.results| < left || (left == 0 && Silent(t.owner)))
       case Fall(_, drop, after) => after.Receive? && after.goal.PollOnly? && (|t.results| < after.left || (after.left == 0 && drop))
       case _ => false
  }

  lemma {:induction false} StepNotices(env: Env, limits: Limits, t: System, step: AecWorker.Step)
    requires Noticing(t) && Settled(env, t.adapter) && t.owner.epoch in t.owner.admitted
    requires step.OwnerStep? || step.WorkerStep? || step.WorkerDies?
    ensures Noticing(Exec(env, limits, t, step))
  {
    hide Settled, ReceiveOne, Compute, RawBlocks;
    if step.OwnerStep? && t.pc.Receive? { ReceiveNotices(limits, t); }
  }

  lemma {:induction false} ReceiveNotices(limits: Limits, t: System)
    requires Noticing(t) && t.pc.Receive?
    ensures Noticing(ReceiveOne(limits, t))
  {
    hide AcceptAll;
  }

  lemma {:induction false} RunNotices(env: Env, limits: Limits, epoch: nat, start: nat, steps: seq<AecWorker.Step>, now: nat, rest: seq<AecWorker.Step>)
    requires env.config.Valid() && OnlyRuns(rest)
    requires var s := RunSystem(env, limits, epoch, start, false, steps);
             Polls(limits, s, CallPoll(now), now) && !Looping(s) && |s.results| <= limits.queuedBlocks
    ensures Noticing(RunSystem(env, limits, epoch, start, false, steps + [CallPoll(now)] + rest))
    decreases |rest|
  {
    hide RunSystem, Inv, Settled;
    if rest == [] {
      assert steps + [CallPoll(now)] + rest == steps + [CallPoll(now)];
      RunOn(env, limits, epoch, start, steps, CallPoll(now));
    } else {
      hide Polls, Exec, Noticing;
      var before, last := rest[..|rest| - 1], rest[|rest| - 1];
      RunNotices(env, limits, epoch, start, steps, now, before);
      assert steps + [CallPoll(now)] + rest == steps + [CallPoll(now)] + before + [last];
      RunOn(env, limits, epoch, start, steps + [CallPoll(now)] + before, last);
      StepNotices(env, limits, RunSystem(env, limits, epoch, start, false, steps + [CallPoll(now)] + before), last);
    }
  }

  /** Once the worker has left its loop, a poll that can look past the results it
      left publishes everything held, without waiting for the deadline, and gives up
      on the worker. */
  lemma {:induction false} DeathIsNoticed(env: Env, limits: Limits, epoch: nat, start: nat, steps: seq<AecWorker.Step>, now: nat, rest: seq<AecWorker.Step>)
    requires env.config.Valid() && OnlyRuns(rest)
    requires var s := RunSystem(env, limits, epoch, start, false, steps);
             Polls(limits, s, CallPoll(now), now) && !Looping(s) && |s.results| <= limits.queuedBlocks
    requires RunSystem(env, limits, epoch, start, false, steps + [CallPoll(now)] + rest).pc.Idle?
    ensures var o := RunSystem(env, limits, epoch, start, false, steps + [CallPoll(now)] + rest).owner;
            o.pending == [] && !o.sender
  {
    hide RunSystem, Inv, Polls, Looping;
    RunNotices(env, limits, epoch, start, steps, now, rest);
  }
}
