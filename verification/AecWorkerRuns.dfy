/** What every interleaving of the echo-canceller worker protocol keeps. */
module AecWorkerRuns {
  import opened AudioBlocks
  import opened Outcomes
  import opened AecAdapter
  import opened AecOwner
  import opened AecWorker
  import opened AecAdapterRuns

  // ---------------------------------------------------------------- invariants

  /** The owner's books balance; while it is about to fall back it may also hold
      originals the worker was never sent. */
  ghost predicate BooksOk(s: System, pure: bool)
  {
    Balanced(s.owner, s.owner.tail, pure) || (s.pc.Fall? && Balanced(s.owner, s.owner.next, pure))
  }

  ghost predicate OfferOk(o: Owner, offer: Offer)
  {
    && o.next + |offer.mic| <= U64_MAX
    && (offer.reference.Some? ==> |offer.reference.value| == |offer.mic|)
  }

  ghost predicate PcOk(s: System, pc: OwnerPc)
    decreases pc
  {
    match pc
    case Idle => true
    case Receive(_, goal) => goal.ThenSubmit? ==> OfferOk(s.owner, goal.offer)
    case Fall(_, _, after) => !after.Fall? && !after.Send? && !after.SendFinish? && PcOk(s, after)
    case CheckStatus(offer) => OfferOk(s.owner, offer) && offer.mic != []
    case Send(offer) => OfferOk(s.owner, offer) && offer.mic != [] && s.owner.sender && s.owner.next == s.owner.tail
    case SendFinish => s.owner.closed && s.owner.sender
  }

  /** While a worker may still be there, everything admitted was sent to it. */
  ghost predicate SentAll(s: System)
  {
    s.owner.sender && !s.worker.Gone? && !s.pc.Fall? ==> s.owner.next == s.owner.tail
  }

  ghost function AdapterBook(s: System, pure: bool): Book
  {
    Book(map[s.active := s.heard], map[s.active := s.adapter.emitted], pure)
  }

  /** Between jobs the adapter is faithful to what it has heard. */
  ghost predicate AdapterOk(env: Env, s: System, pure: bool)
  {
    && s.adapter.epoch == s.active
    && s.adapter.out == []
    && Faithful(env, s.adapter, AdapterBook(s, pure))
  }

  ghost predicate JobOk(o: Owner, job: Job)
    requires o.epoch in o.admitted
  {
    && job.fence <= o.fence
    && job.mic != [] && job.End() <= U64_MAX
    && (job.reference.Some? ==> |job.reference.value| == |job.mic|)
    && (job.fence == o.fence ==> Matches(o.admitted[o.epoch], job.start, job.mic))
  }

  /** Commands the worker has not processed, the one it holds first. */
  ghost function Queue(s: System): seq<Command>
  {
    if s.worker.Took? then [s.worker.command] + s.commands else s.commands
  }

  /** Nothing follows a request to finish, and it is the owner's last. */
  ghost predicate CommandsOk(s: System)
    requires s.owner.epoch in s.owner.admitted
  {
    var q := Queue(s);
    && (forall i :: 0 <= i < |q| && q[i].Input? ==> JobOk(s.owner, q[i].job))
    && (forall i :: 0 <= i < |q| && q[i].FinishInput? ==> i == |q| - 1 && s.owner.closed && !s.owner.sender)
    && (s.adapter.closed ==> q == [] && s.owner.closed && !s.owner.sender)
  }

  /** The jobs of one fence, end to end. */
  ghost predicate JobsTile(q: seq<Command>, fence: nat, from: nat, to: nat)
  {
    if q == [] then from == to
    else if q[0].Input? && q[0].job.fence == fence then
      q[0].job.start == from && JobsTile(q[1..], fence, q[0].job.End(), to)
    else JobsTile(q[1..], fence, from, to)
  }

  ghost function InHand(s: System): seq<Output>
  {
    if s.worker.Offering? || s.worker.Sending? then s.worker.result.blocks else []
  }

  ghost function Blocks(results: seq<ResultBlock>): seq<Output>
  {
    if results == [] then [] else results[0].blocks + Blocks(results[1..])
  }

  /** Computed blocks the owner has not seen yet, oldest first. */
  ghost function InFlight(s: System): seq<Output> { Blocks(s.results) + InHand(s) }

  /** A result's blocks carry its fence; under the current one they are genuine. */
  ghost predicate ResultOk(s: System, r: ResultBlock, pure: bool)
    requires s.owner.epoch in s.owner.admitted
  {
    && r.fence <= s.active
    && forall i :: 0 <= i < |r.blocks| ==>
         && r.blocks[i].epoch == r.fence
         && (r.fence == s.owner.fence ==> Genuine(s.owner.admitted[s.owner.epoch], r.blocks[i], pure))
  }

  ghost predicate ResultsOk(s: System, pure: bool)
    requires s.owner.epoch in s.owner.admitted
  {
    && (forall i :: 0 <= i < |s.results| ==> ResultOk(s, s.results[i], pure))
    && (s.worker.Offering? || s.worker.Sending? ==> ResultOk(s, s.worker.result, pure))
  }

  /** Everything sent under the current fence and not yet published is, in order:
      computed blocks up to `m`, the adapter's queue, the jobs in the mailbox. */
  ghost predicate Flow(s: System, m: nat)
  {
    var o := s.owner;
    && Tiles(InFlight(s), o.fence, Front(o.pending, o.tail), m)
    && m <= o.tail
    && (Looping(s) && s.active == o.fence ==>
          m == s.adapter.emitted && JobsTile(Queue(s), o.fence, s.adapter.end, o.tail))
    && (Looping(s) && s.active != o.fence ==>
          m == Front(o.pending, o.tail) && JobsTile(Queue(s), o.fence, m, o.tail))
  }

  /** Every command and result in flight is what the owner admitted. */
  ghost predicate ContentOk(s: System, pure: bool)
    requires s.owner.epoch in s.owner.admitted
  {
    && 1 <= s.active <= s.owner.fence <= U64_MAX
    && s.adapter.refEnd <= s.adapter.end
    && CommandsOk(s) && ResultsOk(s, pure)
    && (s.active == s.owner.fence ==> Matches(s.owner.admitted[s.owner.epoch], s.heard.origin, s.heard.mic))
    && !s.jobRefused && !s.resultRefused
  }

  /** The whole pipeline, while the fence has not run out. */
  ghost predicate PipeOk(s: System, pure: bool, m: nat)
    requires s.owner.epoch in s.owner.admitted
  {
    ContentOk(s, pure) && Flow(s, m)
  }

  ghost predicate Inv(env: Env, s: System, pure: bool)
  {
    && BooksOk(s, pure) && PcOk(s, s.pc) && SentAll(s)
    && AdapterOk(env, s, pure)
    && (if s.wrapped then s.owner.closed && !s.owner.sender && s.owner.pending == []
        else exists m :: PipeOk(s, pure, m))
  }

  // ---------------------------------------------------------------- queues

  lemma {:induction false} JobsTileBounds(q: seq<Command>, fence: nat, from: nat, to: nat)
    requires JobsTile(q, fence, from, to)
    ensures from <= to
    decreases |q|
  {
    if q != [] {
      JobsTileBounds(q[1..], fence, if q[0].Input? && q[0].job.fence == fence then q[0].job.End() else from, to);
    }
  }

  lemma {:induction false} JobsAbsent(q: seq<Command>, fence: nat, at: nat)
    requires forall i :: 0 <= i < |q| && q[i].Input? ==> q[i].job.fence != fence
    ensures JobsTile(q, fence, at, at)
    decreases |q|
  {
    if q != [] { JobsAbsent(q[1..], fence, at); }
  }

  lemma {:induction false} JobsTilePush(q: seq<Command>, c: Command, fence: nat, from: nat, to: nat)
    requires JobsTile(q, fence, from, to)
    requires c.Input? && c.job.fence == fence ==> c.job.start == to
    ensures JobsTile(q + [c], fence, from, if c.Input? && c.job.fence == fence then c.job.End() else to)
    decreases |q|
  {
    if q == [] {
      assert ([] + [c])[1..] == [];
    } else {
      assert (q + [c])[1..] == q[1..] + [c];
      JobsTilePush(q[1..], c, fence, if q[0].Input? && q[0].job.fence == fence then q[0].job.End() else from, to);
    }
  }

  lemma {:induction false} BlocksPush(results: seq<ResultBlock>, r: ResultBlock)
    ensures Blocks(results + [r]) == Blocks(results) + r.blocks
  {
    if results == [] {
      assert ([] + [r])[1..] == [] && r.blocks + [] == r.blocks;
    } else {
      BlocksPush(results[1..], r);
      assert (results + [r])[1..] == results[1..] + [r];
    }
  }

  // Blocks of other fences neither help nor hurt.
  lemma {:induction false} TilesIgnores(blocks: seq<Output>, e: nat, from: nat, to: nat)
    requires forall i :: 0 <= i < |blocks| ==> blocks[i].epoch != e
    ensures Tiles(blocks, e, from, to) <==> from == to
  {
    if blocks != [] { TilesIgnores(blocks[..|blocks| - 1], e, from, to); }
  }

  lemma {:induction false} BlocksOld(s: System, results: seq<ResultBlock>, pure: bool, fence: nat)
    requires s.owner.epoch in s.owner.admitted && s.active < fence
    requires forall i :: 0 <= i < |results| ==> ResultOk(s, results[i], pure)
    ensures forall i :: 0 <= i < |Blocks(results)| ==> Blocks(results)[i].epoch != fence
  {
    if results != [] { BlocksOld(s, results[1..], pure, fence); }
  }

  // ---------------------------------------------------------------- owner steps

  /** The worker's side and the mailboxes are as they were. */
  ghost predicate SameWorker(s: System, t: System)
  {
    t == s.(owner := t.owner, pc := t.pc, wrapped := t.wrapped)
  }

  // After a fallback nothing in flight belongs to the new fence.
  lemma {:induction false} FenceMoves(s: System, t: System, pure: bool, m: nat)
    requires s.owner.epoch in s.owner.admitted && t.owner.epoch in t.owner.admitted
    requires PipeOk(s, pure, m) && SameWorker(s, t)
    requires t.owner.fence == s.owner.fence + 1 <= U64_MAX && t.owner.pending == []
    requires (s.owner.closed ==> t.owner.closed) && (t.owner.sender ==> s.owner.sender)
    ensures PipeOk(t, pure, t.owner.tail)
  {
    var fence := t.owner.fence;
    BlocksOld(s, s.results, pure, fence);
    TilesIgnores(InFlight(t), fence, t.owner.tail, t.owner.tail);
    JobsAbsent(Queue(t), fence, t.owner.tail);
  }

  lemma {:induction false} FallsBack(env: Env, s: System, t: System, pure: bool, reason: BypassReason)
    requires Inv(env, s, pure) && SameWorker(s, t) && !t.pc.Fall? && PcOk(t, t.pc)
    requires t.owner == Fallback(s.owner, reason).(sender := t.owner.sender, closed := t.owner.closed)
    requires (s.owner.closed ==> t.owner.closed) && (t.owner.sender ==> s.owner.sender)
    requires t.wrapped == (s.wrapped || s.owner.fence == U64_MAX)
    requires t.wrapped ==> t.owner.closed && !t.owner.sender
    ensures Inv(env, t, pure)
  {
    hide PipeOk, Faithful, PcOk, Balanced;
    var end := if Balanced(s.owner, s.owner.tail, pure) then s.owner.tail else s.owner.next;
    FallbackBalances(s.owner, end, pure, reason);
    SameBooks(Fallback(s.owner, reason), t.owner, s.owner.next, pure);
    if !t.wrapped {
      var m :| PipeOk(s, pure, m);
      BalancedHasEpoch(s.owner, end, pure);
      PipeFence(s, pure, m);
      FenceMoves(s, t, pure, m);
    }
  }

  lemma {:induction false} SameBooks(o: Owner, r: Owner, end: nat, pure: bool)
    requires Balanced(o, end, pure)
    requires r == o.(now := r.now, closed := r.closed, sender := r.sender, fence := r.fence)
    ensures Balanced(r, end, pure)
  {
    assert forall e, p :: Held(r, end, e, p) == Held(o, end, e, p);
  }

  lemma {:induction false} BalancedHasEpoch(o: Owner, end: nat, pure: bool)
    requires Balanced(o, end, pure)
    ensures o.epoch in o.admitted && end <= o.next
  {
  }

  lemma {:induction false} PipeFence(s: System, pure: bool, m: nat)
    requires s.owner.epoch in s.owner.admitted && PipeOk(s, pure, m)
    ensures 1 <= s.owner.fence <= U64_MAX
  {
  }

  lemma {:induction false} FallOneKeeps(env: Env, s: System, pure: bool)
    requires Inv(env, s, pure) && s.pc.Fall?
    ensures Inv(env, FallOne(s), pure)
  {
    var t := FallOne(s);
    assert PcOk(t, t.pc) by { assert PcOk(s, s.pc.after); }
    FallsBack(env, s, t, pure, s.pc.reason);
  }

  lemma {:induction false} CancelKeeps(env: Env, s: System, pure: bool, limits: Limits)
    requires Inv(env, s, pure) && s.pc.Idle?
    ensures Inv(env, Begin(limits, s, CallCancel), pure)
  {
    FallsBack(env, s, Begin(limits, s, CallCancel), pure, WorkerCancelled);
  }

  lemma {:induction false} ResetKeeps(env: Env, s: System, pure: bool, limits: Limits, epoch: nat, start: nat)
    requires Inv(env, s, pure) && s.pc.Idle?
    ensures Inv(env, Begin(limits, s, CallReset(epoch, start)), pure)
  {
    hide PipeOk, Faithful, Balanced;
    var t := Begin(limits, s, CallReset(epoch, start));
    if !s.owner.closed && s.owner.epoch < epoch {
      BalancedHasEpoch(s.owner, s.owner.tail, pure);
      RerouteBalances(s.owner, s.owner.tail, pure, epoch, start);
      if !t.wrapped {
        var m :| PipeOk(s, pure, m);
        PipeFence(s, pure, m);
        FenceMoves(s, t, pure, m);
      }
    }
  }

  /** Admissions only add to the end of the current stream. */
  ghost predicate Grows(o: Owner, r: Owner)
  {
    && r.epoch == o.epoch && r.fence == o.fence
    && o.epoch in o.admitted && r.epoch in r.admitted
    && o.admitted[o.epoch].origin == r.admitted[o.epoch].origin
    && o.admitted[o.epoch].mic <= r.admitted[o.epoch].mic
    && (o.closed ==> r.closed) && (r.sender ==> o.sender)
  }

  lemma {:induction false} ContentGrows(s: System, t: System, pure: bool)
    requires Grows(s.owner, t.owner) && SameWorker(s, t) && ContentOk(s, pure)
    ensures ContentOk(t, pure)
  {
    var before, after := s.owner.admitted[s.owner.epoch], t.owner.admitted[t.owner.epoch];
    assert forall start, samples {:trigger Matches(after, start, samples)} :: Matches(before, start, samples) ==> Matches(after, start, samples);
    assert forall i :: 0 <= i < |t.results| ==> ResultOk(s, t.results[i], pure);
    assert forall i :: 0 <= i < |Queue(t)| && Queue(t)[i].Input? ==> JobOk(s.owner, Queue(t)[i].job);
  }

  // A step that touches neither what is held nor the mailboxes.
  lemma {:induction false} QuietKeeps(env: Env, s: System, t: System, pure: bool)
    requires Inv(env, s, pure) && !s.pc.Fall? && SameWorker(s, t) && t.wrapped == s.wrapped
    requires t.owner == s.owner.(now := t.owner.now, closed := t.owner.closed, sender := t.owner.sender)
    requires (s.owner.closed ==> t.owner.closed) && (t.owner.sender ==> s.owner.sender)
    requires PcOk(t, t.pc)
    ensures Inv(env, t, pure)
  {
    hide Faithful, Balanced, ContentOk, PcOk;
    SameBooks(s.owner, t.owner, s.owner.tail, pure);
    BalancedHasEpoch(s.owner, s.owner.tail, pure);
    if !t.wrapped {
      var m :| PipeOk(s, pure, m);
      ContentGrows(s, t, pure);
      assert PipeOk(t, pure, m);
    }
  }

  lemma {:induction false} BeginPollKeeps(env: Env, s: System, pure: bool, limits: Limits, now: nat, goal: Goal)
    requires Inv(env, s, pure) && s.pc.Idle?
    requires goal.ThenSubmit? ==> OfferOk(s.owner, goal.offer)
    ensures Inv(env, BeginPoll(limits, s, now, goal), pure)
  {
    var t := BeginPoll(limits, s, now, goal);
    if t != s {
      assert PcOk(t, Receive(limits.queuedBlocks + 1, goal));
      QuietKeeps(env, s, t, pure);
    }
  }

  lemma {:induction false} AfterPollKeeps(env: Env, s: System, pure: bool, limits: Limits, goal: Goal)
    requires Inv(env, s, pure) && s.pc.Receive?
    requires goal.ThenSubmit? ==> OfferOk(s.owner, goal.offer)
    ensures Inv(env, AfterPoll(limits, s, goal), pure)
  {
    assert !s.pc.Fall?;
    hide Inv;
    var t := AfterPoll(limits, s, goal);
    if goal.ThenSubmit? && goal.offer.mic != [] { assert PcOk(t, CheckStatus(goal.offer)); }
    QuietKeeps(env, s, t, pure);
  }

  // Taking the oldest result off the mailbox.
  lemma {:induction false} FlowTakes(s: System, pure: bool, m: nat) returns (mid: nat)
    requires s.owner.epoch in s.owner.admitted && PipeOk(s, pure, m) && s.results != []
    ensures Tiles(s.results[0].blocks, s.owner.fence, Front(s.owner.pending, s.owner.tail), mid)
    ensures Tiles(Blocks(s.results[1..]) + InHand(s), s.owner.fence, mid, m)
    ensures mid <= m
    ensures s.results[0].fence != s.owner.fence ==> mid == Front(s.owner.pending, s.owner.tail)
    ensures Looping(s) && s.active != s.owner.fence ==> mid == m
  {
    var rest := Blocks(s.results[1..]) + InHand(s);
    assert InFlight(s) == s.results[0].blocks + rest;
    mid := TilesSplit(s.results[0].blocks, rest, s.owner.fence, Front(s.owner.pending, s.owner.tail), m);
    TilesBounds(rest, s.owner.fence, mid, m);
    TilesBounds(s.results[0].blocks, s.owner.fence, Front(s.owner.pending, s.owner.tail), mid);
    assert ResultOk(s, s.results[0], pure);
    if s.results[0].fence != s.owner.fence {
      TilesIgnores(s.results[0].blocks, s.owner.fence, Front(s.owner.pending, s.owner.tail), mid);
    }
  }

  // Dropping the oldest result changes nothing else that was in flight.
  lemma {:induction false} ContentTakes(s: System, t: System, pure: bool)
    requires s.owner.epoch in s.owner.admitted && ContentOk(s, pure) && s.results != []
    requires Grows(s.owner, t.owner) && t.owner.admitted == s.owner.admitted
    requires t == s.(owner := t.owner, results := s.results[1..], pc := t.pc)
    ensures ContentOk(t, pure)
  {
    assert Queue(t) == Queue(s);
    assert forall i :: 0 <= i < |t.results| ==> t.results[i] == s.results[i + 1] && ResultOk(s, t.results[i], pure);
    assert forall i :: 0 <= i < |Queue(t)| && Queue(t)[i].Input? ==> JobOk(s.owner, Queue(t)[i].job);
  }

  lemma {:induction false} ReceiveResult(env: Env, s: System, pure: bool, limits: Limits)
    requires Inv(env, s, pure) && s.pc.Receive? && s.pc.left > 0 && s.results != [] && !s.wrapped
    ensures Inv(env, ReceiveOne(limits, s), pure)
  {
    hide Faithful, Balanced, ContentOk, AcceptAll, Tiles, JobsTile, Blocks;
    var t := ReceiveOne(limits, s);
    var result := s.results[0];
    BalancedHasEpoch(s.owner, s.owner.tail, pure);
    var m :| PipeOk(s, pure, m);
    var mid := FlowTakes(s, pure, m);
    if result.fence == s.owner.fence {
      ResultGenuine(s, pure);
      AcceptAllBalances(s.owner, pure, result.blocks, result.fence, mid);
    }
    ContentTakes(s, t, pure);
    assert Flow(t, m);
    assert PipeOk(t, pure, m);
  }

  lemma {:induction false} ResultGenuine(s: System, pure: bool)
    requires s.owner.epoch in s.owner.admitted && ContentOk(s, pure) && s.results != []
    requires s.results[0].fence == s.owner.fence
    ensures forall i :: 0 <= i < |s.results[0].blocks| ==>
              s.results[0].blocks[i].epoch == s.owner.fence && Genuine(s.owner.admitted[s.owner.epoch], s.results[0].blocks[i], pure)
  {
    assert ResultOk(s, s.results[0], pure);
  }

  lemma {:induction false} ReceiveKeeps(env: Env, s: System, pure: bool, limits: Limits)
    requires Inv(env, s, pure) && s.pc.Receive?
    ensures Inv(env, ReceiveOne(limits, s), pure)
  {
    var t := ReceiveOne(limits, s);
    if s.pc.left == 0 {
      AfterPollKeeps(env, s, pure, limits, s.pc.goal);
    } else if s.results != [] {
      if !s.wrapped {
        ReceiveResult(env, s, pure, limits);
      } else {
        var o := s.owner;
        assert AcceptAll(o, s.results[0].blocks).0 == o;
        assert PcOk(t, Receive(s.pc.left - 1, s.pc.goal));
      }
    } else if Looping(s) {
      AfterPollKeeps(env, s, pure, limits, s.pc.goal);
    } else {
      assert PcOk(t, Receive(0, s.pc.goal));
      QuietKeeps(env, s, t, pure);
    }
  }

  lemma {:induction false} StatusKeeps(env: Env, s: System, pure: bool)
    requires Inv(env, s, pure) && s.pc.CheckStatus? && s.owner.epoch in s.owner.admitted
    ensures Inv(env, LookAtStatus(s), pure)
  {
    hide Faithful, Balanced, ContentOk, Tiles, JobsTile, Blocks;
    var t := LookAtStatus(s);
    if !s.owner.sender || s.worker.Gone? {
      PassThroughBalances(s.owner, s.owner.tail, pure, s.pc.offer.mic);
      if !s.wrapped {
        var m :| PipeOk(s, pure, m);
        ContentGrows(s, t, pure);
        assert PipeOk(t, pure, m);
      }
    } else {
      QuietKeeps(env, s, t, pure);
    }
  }

  // A command behind the others, from an owner that still had its sender.
  lemma {:induction false} ContentSends(s: System, t: System, pure: bool, c: Command)
    requires s.owner.epoch in s.owner.admitted && ContentOk(s, pure) && s.owner.sender
    requires Grows(s.owner, t.owner)
    requires t == s.(owner := t.owner, pc := t.pc, commands := s.commands + [c])
    requires c.Input? ==> JobOk(t.owner, c.job)
    requires c.FinishInput? ==> t.owner.closed && !t.owner.sender
    ensures ContentOk(t, pure)
  {
    hide ResultsOk;
    var u := s.(owner := t.owner, pc := t.pc);
    ContentGrows(s, u, pure);
    assert Queue(t) == Queue(u) + [c];
    assert ResultsOk(t, pure) by { SameResults(u, t, pure); }
  }

  lemma {:induction false} SameResults(s: System, t: System, pure: bool)
    requires s.owner.epoch in s.owner.admitted && ResultsOk(s, pure)
    requires t == s.(commands := t.commands)
    ensures ResultsOk(t, pure)
  {
    assert forall i :: 0 <= i < |s.results| ==> ResultOk(s, s.results[i], pure);
  }

  lemma {:induction false} FlowSends(s: System, t: System, c: Command, m: nat)
    requires Flow(s, m) && t == s.(owner := t.owner, pc := t.pc, commands := s.commands + [c])
    requires t.owner.fence == s.owner.fence
    requires Front(t.owner.pending, t.owner.tail) == Front(s.owner.pending, s.owner.tail)
    requires if c.Input? then c.job.fence == s.owner.fence && c.job.start == s.owner.tail && t.owner.tail == c.job.End()
             else t.owner.tail == s.owner.tail
    ensures Flow(t, m)
  {
    assert Queue(t) == Queue(s) + [c];
    if Looping(s) {
      JobsTilePush(Queue(s), c, s.owner.fence, if s.active == s.owner.fence then s.adapter.end else m, s.owner.tail);
    }
  }

  lemma {:induction false} HoldFacts(o: Owner, pure: bool, offer: Offer, sent: bool)
    requires Balanced(o, o.tail, pure) && offer.mic != [] && o.tail == o.next && OfferOk(o, offer)
    ensures var r := Hold(o, offer.mic, offer.now, sent);
            && Grows(o, r)
            && Balanced(r, r.next, pure) && (sent ==> r.tail == r.next)
            && Front(r.pending, r.tail) == Front(o.pending, o.tail)
            && (o.fence <= U64_MAX ==> JobOk(r, Job(o.fence, o.next, offer.mic, offer.reference)))
  {
    HoldBalances(o, pure, offer.mic, offer.now, sent);
    AdmitGenuine(o, offer.mic, pure);
  }

  lemma {:induction false} SendKeeps(env: Env, s: System, pure: bool, limits: Limits)
    requires Inv(env, s, pure) && s.pc.Send? && s.owner.epoch in s.owner.admitted
    ensures Inv(env, SendOne(limits, s), pure)
  {
    hide Faithful, Balanced, ContentOk, Flow, Grows, JobOk, Hold;
    var t := SendOne(limits, s);
    var offer := s.pc.offer;
    var m :| PipeOk(s, pure, m);
    if Receiving(s) && |s.commands| >= limits.queuedBlocks {
      if offer.defer {
        QuietKeeps(env, s, t, pure);
      } else {
        HeldUnsent(env, s, t, pure, m);
      }
    } else if !Receiving(s) {
      HeldUnsent(env, s, t, pure, m);
    } else {
      HeldSent(env, s, t, pure, m);
    }
  }

  lemma {:induction false} HeldUnsent(env: Env, s: System, t: System, pure: bool, m: nat)
    requires Inv(env, s, pure) && s.pc.Send? && s.owner.epoch in s.owner.admitted && PipeOk(s, pure, m)
    requires t == s.(owner := Hold(s.owner, s.pc.offer.mic, s.pc.offer.now, false), pc := t.pc)
    requires t.pc.Fall? && t.pc.after.Idle?
    ensures Inv(env, t, pure)
  {
    HoldFacts(s.owner, pure, s.pc.offer, false);
    hide Faithful, Balanced, ContentOk, Flow;
    ContentGrows(s, t, pure);
    SameFlow(s, t, m);
    assert PipeOk(t, pure, m) && PcOk(t, t.pc.after);
  }

  lemma {:induction false} HeldSent(env: Env, s: System, t: System, pure: bool, m: nat)
    requires Inv(env, s, pure) && s.pc.Send? && s.owner.epoch in s.owner.admitted && PipeOk(s, pure, m)
    requires t == s.(owner := Hold(s.owner, s.pc.offer.mic, s.pc.offer.now, true), pc := Idle,
                     commands := s.commands + [Input(Job(s.owner.fence, s.owner.next, s.pc.offer.mic, s.pc.offer.reference))])
    ensures Inv(env, t, pure)
  {
    var c := Input(Job(s.owner.fence, s.owner.next, s.pc.offer.mic, s.pc.offer.reference));
    HoldFacts(s.owner, pure, s.pc.offer, true);
    hide Faithful, Balanced, Flow;
    assert s.owner.fence <= U64_MAX;
    hide ContentOk;
    ContentSends(s, t, pure, c);
    FlowSends(s, t, c, m);
    assert PipeOk(t, pure, m);
  }

  lemma {:induction false} SameFlow(s: System, t: System, m: nat)
    requires Flow(s, m) && SameWorker(s, t)
    requires t.owner.fence == s.owner.fence && t.owner.tail == s.owner.tail
    requires Front(t.owner.pending, t.owner.tail) == Front(s.owner.pending, s.owner.tail)
    ensures Flow(t, m)
  {
  }

  lemma {:induction false} SendFinishKeeps(env: Env, s: System, pure: bool, limits: Limits)
    requires Inv(env, s, pure) && s.pc.SendFinish?
    ensures Inv(env, SendFinishOne(limits, s), pure)
  {
    hide Faithful, Balanced, ContentOk, Flow;
    var t := SendFinishOne(limits, s);
    if !Receiving(s) || |s.commands| >= limits.queuedBlocks {
      QuietKeeps(env, s, t, pure);
    } else {
      BalancedHasEpoch(s.owner, s.owner.tail, pure);
      var m :| PipeOk(s, pure, m);
      SameBooks(s.owner, t.owner, s.owner.tail, pure);
      ContentSends(s, t, pure, FinishInput);
      FlowSends(s, t, FinishInput, m);
      assert PipeOk(t, pure, m);
    }
  }

  lemma {:induction false} OwnerStepKeeps(env: Env, s: System, pure: bool, limits: Limits)
    requires Inv(env, s, pure) && s.owner.epoch in s.owner.admitted
    ensures Inv(env, OwnerRuns(limits, s), pure)
  {
    hide Inv, ReceiveOne, FallOne, LookAtStatus, SendOne, SendFinishOne;
    match s.pc
    case Idle =>
    case Receive(_, _) => ReceiveKeeps(env, s, pure, limits);
    case Fall(_, _, _) => FallOneKeeps(env, s, pure);
    case CheckStatus(_) => StatusKeeps(env, s, pure);
    case Send(_) => SendKeeps(env, s, pure, limits);
    case SendFinish => SendFinishKeeps(env, s, pure, limits);
  }

  lemma {:induction false} CallKeeps(env: Env, s: System, pure: bool, limits: Limits, step: AecWorker.Step)
    requires Inv(env, s, pure) && s.pc.Idle?
    ensures Inv(env, Begin(limits, s, step), pure)
  {
    hide Inv, BeginPoll;
    match step
    case CallPoll(now) => BeginPollKeeps(env, s, pure, limits, now, PollOnly);
    case CallSubmit(epoch, start, mic, reference, now, defer) =>
      if Offerable(limits, s.owner, epoch, start, mic, reference) {
        BeginPollKeeps(env, s, pure, limits, now, ThenSubmit(Offer(mic, reference, now, defer)));
      }
    case CallReset(epoch, start) => ResetKeeps(env, s, pure, limits, epoch, start);
    case CallFinish(now) => BeginPollKeeps(env, s, pure, limits, now, ThenClose);
    case CallCancel => CancelKeeps(env, s, pure, limits);
    case _ =>
  }

  // ---------------------------------------------------------------- worker steps

  ghost function OneStream(epoch: nat, heard: Stream, start: nat, pure: bool): Book
  {
    Book(map[epoch := heard], map[epoch := start], pure)
  }

  // Handing the output over leaves the adapter faithful to its one stream.
  lemma {:induction false} ClearFaithful(env: Env, a: Adapter, k: Book)
    requires Faithful(env, a, k)
    ensures Faithful(env, a.(out := []), OneStream(a.epoch, k.streams[a.epoch], a.emitted, k.pure))
  {
    hide Fed, PureDelay;
    var one := OneStream(a.epoch, k.streams[a.epoch], a.emitted, k.pure);
    assert TilesStream([], one, a.epoch, a.emitted, a.epoch);
  }

  /** The adapter accepts a job that continues this fence at its end, and then
      holds no reference beyond the microphone. */
  lemma {:induction false} RunJobAccepts(env: Env, a: Adapter, fence: nat, job: Job)
    requires Settled(env, a) && a.epoch == fence && !a.closed
    requires a.end == job.start && a.refEnd <= a.end && job.End() <= U64_MAX && job.mic != []
    requires job.reference.Some? ==> |job.reference.value| == |job.mic|
    ensures var r := RunJob(env, a, fence, job);
            r.Some? && r.value.end == job.End() && r.value.refEnd <= r.value.end
  {
    hide PushReference, PushSamples, Settled, Bypass;
  }

  lemma {:induction false} CapturedFaithful(env: Env, a: Adapter, fence: nat, job: Job, heard: Stream, start: nat, pure: bool)
    requires Faithful(env, a, OneStream(fence, heard, start, pure))
    requires PushCapture(env, a, fence, job.start, job.mic).Accepted?
    ensures var r := PushCapture(env, a, fence, job.start, job.mic).adapter;
            && r.epoch == fence && !r.closed
            && Faithful(env, r, OneStream(fence, heard.(mic := heard.mic + job.mic), start, pure))
  {
    hide PushCapture, Faithful, Validate;
    var k := OneStream(fence, heard, start, pure);
    CaptureFaithful(env, a, k, fence, job.start, job.mic);
    assert Grow(k, fence, job.mic) == OneStream(fence, heard.(mic := heard.mic + job.mic), start, pure);
  }

  lemma {:induction false} RunJobFaithful(env: Env, a: Adapter, fence: nat, job: Job, heard: Stream, start: nat, pure: bool)
    requires a.epoch == fence && Faithful(env, a, OneStream(fence, heard, start, pure))
    requires RunJob(env, a, fence, job).Some?
    ensures var r := RunJob(env, a, fence, job).value;
            && r.epoch == fence && !r.closed
            && Faithful(env, r, OneStream(fence, heard.(mic := heard.mic + job.mic), start, pure))
  {
    var k := OneStream(fence, heard, start, pure);
    assert Settled(env, a);
    hide PushRender, PushCapture, Faithful, FlushReferenceWait, Settled, OneStream, Validate;
    var rendered := a;
    if job.reference.Some? {
      rendered := PushRender(env, a, fence, job.start, job.reference.value).adapter;
      PushRenderFaithful(env, a, k, fence, job.start, job.reference.value);
    }
    CapturedFaithful(env, rendered, fence, job, heard, start, pure);
    if job.reference.None? {
      var captured := PushCapture(env, rendered, fence, job.start, job.mic).adapter;
      FlushWaitFaithful(env, captured, OneStream(fence, heard.(mic := heard.mic + job.mic), start, pure));
    }
  }

  /** The adapter a job is run on: reset first if the fence has moved. */
  ghost function Ready(env: Env, s: System, start: nat): (r: Outcome)
    requires Settled(env, s.adapter)
    ensures r.Accepted? ==> Settled(env, r.adapter)
  {
    if s.active != s.owner.fence then
      var reset := Reset(env, s.adapter, s.owner.fence, start);
      if reset.Accepted? then Accepted(reset.adapter.(out := [])) else reset
    else Accepted(s.adapter)
  }

  ghost function ReadyStream(s: System, start: nat): Stream
  {
    if s.active != s.owner.fence then Stream(start, []) else s.heard
  }

  lemma {:induction false} ReadyFaithful(env: Env, s: System, pure: bool, start: nat)
    requires AdapterOk(env, s, pure) && Ready(env, s, start).Accepted?
    ensures var r := Ready(env, s, start).adapter;
            && r.epoch == s.owner.fence && r.out == []
            && Faithful(env, r, OneStream(s.owner.fence, ReadyStream(s, start), r.emitted, pure))
  {
    if s.active != s.owner.fence {
      hide Faithful;
      var k := AdapterBook(s, pure);
      ResetFaithful(env, s.adapter, k, s.owner.fence, start);
      ClearFaithful(env, Reset(env, s.adapter, s.owner.fence, start).adapter, Open(k, s.owner.fence, start));
    }
  }

  /** What a job does to the adapter, once it is accepted. */
  lemma {:induction false} ComputeInputAdapter(env: Env, s: System, pure: bool)
    requires AdapterOk(env, s, pure) && s.worker.Took? && s.worker.command.Input?
    requires s.worker.command.job.fence == s.owner.fence
    requires Ready(env, s, s.worker.command.job.start).Accepted?
    requires RunJob(env, Ready(env, s, s.worker.command.job.start).adapter, s.owner.fence, s.worker.command.job).Some?
    ensures var job, f := s.worker.command.job, s.owner.fence;
            var ready := Ready(env, s, job.start).adapter;
            var done := RunJob(env, ready, f, job).value;
            var before := ReadyStream(s, job.start);
            var heard := before.(mic := before.mic + job.mic);
            && done.epoch == f && !done.closed
            && Compute(env, s) == Publish(s, f, done, heard)
            && Faithful(env, done, OneStream(f, heard, ready.emitted, pure))
            && AdapterOk(env, Compute(env, s), pure)
  {
    var job, f := s.worker.command.job, s.owner.fence;
    var ready := Ready(env, s, job.start).adapter;
    var before := ReadyStream(s, job.start);
    var heard := before.(mic := before.mic + job.mic);
    assert [] + job.mic == job.mic;
    hide Faithful, RunJob, Reset;
    ReadyFaithful(env, s, pure, job.start);
    RunJobFaithful(env, ready, f, job, before, ready.emitted, pure);
    ClearFaithful(env, RunJob(env, ready, f, job).value, OneStream(f, heard, ready.emitted, pure));
  }

  // A block genuine in part of a stream is genuine in the whole of it.
  lemma {:induction false} SubGenuine(whole: Stream, part: Stream, block: Output, pure: bool)
    requires Matches(whole, part.origin, part.mic) && Genuine(part, block, pure)
    ensures Genuine(whole, block, pure)
  {
    if block.kind.Raw? || pure {
      SliceOfSlice(whole.mic, part.origin - whole.origin, part.mic, block.start - part.origin, |block.samples|);
    }
  }

  lemma {:induction false} SliceOfSlice(whole: seq<Sample>, at: nat, part: seq<Sample>, i: nat, n: nat)
    requires at + |part| <= |whole| && part == whole[at..at + |part|] && i + n <= |part|
    ensures part[i..i + n] == whole[at + i..at + i + n]
  {
    var x, y := part[i..i + n], whole[at + i..at + i + n];
    assert |x| == |y|;
    forall j | 0 <= j < n
      ensures x[j] == y[j]
    {
      assert x[j] == part[i + j] && part[i + j] == whole[at + (i + j)];
    }
  }

  lemma {:induction false} MatchesConcat(s: Stream, start: nat, x: seq<Sample>, y: seq<Sample>)
    requires Matches(s, start, x) && Matches(s, start + |x|, y)
    ensures Matches(s, start, x + y)
  {
  }

  /** What the worker may publish: blocks from where the last ones ended, over
      audio the owner admitted, with the remaining jobs next in line. */
  ghost predicate Publishable(s: System, pure: bool, m: nat, a: Adapter, heard: Stream)
    requires s.owner.epoch in s.owner.admitted
  {
    var f := s.owner.fence;
    && a.emitted <= a.end && a.refEnd <= a.end
    && Covers(a.out, OneStream(f, heard, m, pure), f, a.emitted)
    && Matches(s.owner.admitted[s.owner.epoch], heard.origin, heard.mic)
    && JobsTile(s.commands, f, a.end, s.owner.tail)
    && (a.closed ==> s.commands == [] && s.owner.closed && !s.owner.sender)
  }

  lemma {:induction false} PublishContent(s: System, pure: bool, m: nat, a: Adapter, heard: Stream)
    requires s.owner.epoch in s.owner.admitted && s.worker.Took? && ContentOk(s, pure)
    requires Publishable(s, pure, m, a, heard)
    ensures ContentOk(Publish(s, s.owner.fence, a, heard), pure)
  {
    hide Tiles, JobsTile, JobOk;
    var t := Publish(s, s.owner.fence, a, heard);
    assert Queue(t) == s.commands == Queue(s)[1..];
    assert forall i :: 0 <= i < |t.results| ==> ResultOk(s, s.results[i], pure);
    forall i | 0 <= i < |a.out|
      ensures a.out[i].epoch == s.owner.fence && Genuine(s.owner.admitted[s.owner.epoch], a.out[i], pure)
    {
      SubGenuine(s.owner.admitted[s.owner.epoch], heard, a.out[i], pure);
    }
    assert forall i :: 0 <= i < |Queue(t)| && Queue(t)[i].Input? ==> JobOk(s.owner, Queue(s)[i + 1].job);
    assert forall i :: 0 <= i < |Queue(t)| && Queue(t)[i].FinishInput? ==> Queue(s)[i + 1].FinishInput?;
  }

  lemma {:induction false} PublishFlow(s: System, pure: bool, m: nat, a: Adapter, heard: Stream)
    requires s.owner.epoch in s.owner.admitted && s.worker.Took? && Flow(s, m)
    requires Publishable(s, pure, m, a, heard)
    ensures Flow(Publish(s, s.owner.fence, a, heard), a.emitted)
  {
    var f := s.owner.fence;
    var t := Publish(s, f, a, heard);
    assert InFlight(s) == Blocks(s.results);
    assert TilesStream(a.out, OneStream(f, heard, m, pure), f, a.emitted, f);
    TilesJoin(Blocks(s.results), a.out, f, Front(s.owner.pending, s.owner.tail), m, a.emitted);
    JobsTileBounds(s.commands, f, a.end, s.owner.tail);
    assert Queue(t) == s.commands;
  }

  /** The owner's side is as it was, and the worker did not go from gone back. */
  ghost predicate SameOwner(s: System, t: System)
  {
    && t.owner == s.owner && t.pc == s.pc && t.wrapped == s.wrapped
    && (s.worker.Gone? ==> t.worker.Gone?)
  }

  // A worker step is safe once the adapter and the pipeline are.
  lemma {:induction false} WorkerMoves(env: Env, s: System, t: System, pure: bool)
    requires Inv(env, s, pure) && SameOwner(s, t) && AdapterOk(env, t, pure)
    requires s.owner.epoch in s.owner.admitted
    requires !t.wrapped ==> exists m :: PipeOk(t, pure, m)
    ensures Inv(env, t, pure)
  {
    hide Faithful, Balanced, PipeOk, AdapterOk;
    PcSame(s, t, s.pc);
  }

  lemma {:induction false} PcSame(s: System, t: System, pc: OwnerPc)
    requires PcOk(s, pc) && t.owner == s.owner
    ensures PcOk(t, pc)
  {
    if pc.Fall? { PcSame(s, t, pc.after); }
  }

  // Dropping a command of another fence.
  lemma {:induction false} SkipPipe(s: System, pure: bool, m: nat)
    requires s.owner.epoch in s.owner.admitted && s.worker.Took? && PipeOk(s, pure, m)
    requires s.worker.command.Input? ==> s.worker.command.job.fence != s.owner.fence
    ensures PipeOk(s.(worker := Waiting), pure, m)
  {
    hide Tiles, Matches, Genuine, JobOk;
    var t := s.(worker := Waiting);
    assert Queue(t) == Queue(s)[1..] == s.commands;
    assert forall i :: 0 <= i < |t.results| ==> ResultOk(s, s.results[i], pure);
    assert forall i :: 0 <= i < |Queue(t)| && Queue(t)[i].Input? ==> JobOk(s.owner, Queue(s)[i + 1].job);
    assert forall i :: 0 <= i < |Queue(t)| && Queue(t)[i].FinishInput? ==> Queue(s)[i + 1].FinishInput?;
  }

  // A finished adapter is published from where its last blocks ended.
  lemma {:induction false} FinishPublishable(env: Env, s: System, pure: bool, m: nat)
    requires s.owner.epoch in s.owner.admitted && s.worker.Took? && PipeOk(s, pure, m)
    requires AdapterOk(env, s, pure) && s.worker.command.FinishInput? && s.active == s.owner.fence
    ensures Faithful(env, Finish(env, s.adapter), AdapterBook(s, pure))
    ensures Publishable(s, pure, m, Finish(env, s.adapter), s.heard)
  {
    FinishFaithful(env, s.adapter, AdapterBook(s, pure));
    assert Queue(s)[0].FinishInput? && Queue(s) == [FinishInput] + s.commands;
    assert s.commands == [];
    hide Finish, InStep, PureDelay;
  }

  lemma {:induction false} FinishStepKeeps(env: Env, s: System, pure: bool)
    requires Inv(env, s, pure) && s.worker.Took? && s.worker.command.FinishInput? && s.active == s.owner.fence
    requires s.owner.epoch in s.owner.admitted
    ensures Inv(env, Compute(env, s), pure)
  {
    assert Settled(env, s.adapter);
    hide Balanced, PcOk, Finish, Faithful, Settled, ContentOk, Flow;
    var t := Compute(env, s);
    FinishFaithful(env, s.adapter, AdapterBook(s, pure));
    ClearFaithful(env, Finish(env, s.adapter), AdapterBook(s, pure));
    if !s.wrapped {
      var m :| PipeOk(s, pure, m);
      FinishPublishable(env, s, pure, m);
      PublishContent(s, pure, m, Finish(env, s.adapter), s.heard);
      PublishFlow(s, pure, m, Finish(env, s.adapter), s.heard);
      assert PipeOk(t, pure, Finish(env, s.adapter).emitted);
    }
    hide SentAll;
    WorkerMoves(env, s, t, pure);
  }

  // Under the current fence the next job always continues what the adapter heard.
  lemma {:induction false} InputAccepted(env: Env, s: System, pure: bool, m: nat)
    requires s.owner.epoch in s.owner.admitted && s.worker.Took? && PipeOk(s, pure, m) && AdapterOk(env, s, pure)
    requires s.worker.command.Input? && s.worker.command.job.fence == s.owner.fence
    ensures var job, f := s.worker.command.job, s.owner.fence;
            var ready := Ready(env, s, job.start);
            && ready.Accepted? && ready.adapter.emitted == m
            && RunJob(env, ready.adapter, f, job).Some?
            && RunJob(env, ready.adapter, f, job).value.end == job.End()
            && RunJob(env, ready.adapter, f, job).value.refEnd <= job.End()
            && JobsTile(s.commands, f, job.End(), s.owner.tail)
            && JobOk(s.owner, job)
            && ReadyStream(s, job.start).End() == job.start
  {
    var job, f := s.worker.command.job, s.owner.fence;
    assert Queue(s)[0] == Input(job) && Queue(s)[1..] == s.commands;
    assert JobOk(s.owner, job);
    hide PureDelay, RunJob, Reset, InStep;
    RunJobAccepts(env, Ready(env, s, job.start).adapter, f, job);
  }

  lemma {:induction false} InputPublishable(env: Env, s: System, pure: bool, m: nat)
    requires s.owner.epoch in s.owner.admitted && s.worker.Took? && PipeOk(s, pure, m) && AdapterOk(env, s, pure)
    requires s.worker.command.Input? && s.worker.command.job.fence == s.owner.fence
    ensures Ready(env, s, s.worker.command.job.start).Accepted?
    ensures RunJob(env, Ready(env, s, s.worker.command.job.start).adapter, s.owner.fence, s.worker.command.job).Some?
    ensures var job := s.worker.command.job;
            var done := RunJob(env, Ready(env, s, job.start).adapter, s.owner.fence, job).value;
            var before := ReadyStream(s, job.start);
            var heard := before.(mic := before.mic + job.mic);
            && Compute(env, s) == Publish(s, s.owner.fence, done, heard)
            && AdapterOk(env, Compute(env, s), pure)
            && Publishable(s, pure, m, done, heard)
  {
    var job, f := s.worker.command.job, s.owner.fence;
    InputAccepted(env, s, pure, m);
    ComputeInputAdapter(env, s, pure);
    var done := RunJob(env, Ready(env, s, job.start).adapter, f, job).value;
    var before := ReadyStream(s, job.start);
    var heard := before.(mic := before.mic + job.mic);
    HeardMatches(s, pure, m, job);
    FaithfulCovers(env, done, OneStream(f, heard, m, pure));
    hide Faithful, RunJob, Ready, Compute, AdapterOk, Covers, Matches, JobsTile, PipeOk;
  }

  lemma {:induction false} FaithfulCovers(env: Env, a: Adapter, k: Book)
    requires Faithful(env, a, k)
    ensures Covers(a.out, k, a.epoch, a.emitted) && a.emitted <= a.end
  {
  }

  lemma {:induction false} HeardMatches(s: System, pure: bool, m: nat, job: Job)
    requires s.owner.epoch in s.owner.admitted && PipeOk(s, pure, m)
    requires JobOk(s.owner, job) && job.fence == s.owner.fence && ReadyStream(s, job.start).End() == job.start
    ensures var before := ReadyStream(s, job.start);
            Matches(s.owner.admitted[s.owner.epoch], before.origin, before.mic + job.mic)
  {
    var before := ReadyStream(s, job.start);
    hide CommandsOk, ResultsOk, Flow;
    assert Matches(s.owner.admitted[s.owner.epoch], before.origin, before.mic);
    MatchesConcat(s.owner.admitted[s.owner.epoch], before.origin, before.mic, job.mic);
  }

  lemma {:induction false} InputStepKeeps(env: Env, s: System, pure: bool)
    requires Inv(env, s, pure) && s.worker.Took? && s.worker.command.Input?
    requires s.worker.command.job.fence == s.owner.fence && s.owner.epoch in s.owner.admitted
    ensures Inv(env, Compute(env, s), pure)
  {
    assert Settled(env, s.adapter);
    var job := s.worker.command.job;
    hide Balanced, PcOk, Faithful, Settled, RunJob, ContentOk, Flow;
    if !s.wrapped {
      var m :| PipeOk(s, pure, m);
      InputPublishable(env, s, pure, m);
      var done := RunJob(env, Ready(env, s, job.start).adapter, s.owner.fence, job).value;
      var before := ReadyStream(s, job.start);
      var heard := before.(mic := before.mic + job.mic);
      PublishContent(s, pure, m, done, heard);
      PublishFlow(s, pure, m, done, heard);
      assert PipeOk(Compute(env, s), pure, done.emitted);
    } else if Ready(env, s, job.start).Accepted?
           && RunJob(env, Ready(env, s, job.start).adapter, s.owner.fence, job).Some? {
      ComputeInputAdapter(env, s, pure);
    }
    hide SentAll;
    WorkerMoves(env, s, Compute(env, s), pure);
  }

  lemma {:induction false} ComputeKeeps(env: Env, s: System, pure: bool)
    requires Inv(env, s, pure) && s.worker.Took? && s.owner.epoch in s.owner.admitted
    ensures Settled(env, s.adapter) && Inv(env, Compute(env, s), pure)
  {
    assert Settled(env, s.adapter);
    var c := s.worker.command;
    if c.FinishInput? && s.active == s.owner.fence {
      FinishStepKeeps(env, s, pure);
    } else if c.Input? && c.job.fence == s.owner.fence {
      InputStepKeeps(env, s, pure);
    } else {
      hide Balanced, Faithful, PipeOk, Settled;
      if !s.wrapped {
        var m :| PipeOk(s, pure, m);
        SkipPipe(s, pure, m);
      }
      WorkerMoves(env, s, s.(worker := Waiting), pure);
    }
  }

  // Taking a command, or moving a result along, keeps what is in flight.
  lemma {:induction false} HandsOver(env: Env, s: System, t: System, pure: bool)
    requires Inv(env, s, pure) && s.owner.epoch in s.owner.admitted && SameOwner(s, t) && Looping(s) && Looping(t)
    requires t == s.(worker := t.worker, commands := t.commands, results := t.results)
    requires Queue(t) == Queue(s)
    requires s.wrapped || InFlight(t) == InFlight(s)
    requires s.wrapped || forall m :: PipeOk(s, pure, m) ==> ResultsOk(t, pure)
    ensures Inv(env, t, pure)
  {
    hide Balanced, Faithful;
    if !s.wrapped {
      var m :| PipeOk(s, pure, m);
      assert ResultsOk(t, pure);
      hide ResultsOk, PcOk;
      assert PipeOk(t, pure, m);
    }
    WorkerMoves(env, s, t, pure);
  }

  lemma {:induction false} TakeKeeps(env: Env, s: System, pure: bool)
    requires Inv(env, s, pure) && s.owner.epoch in s.owner.admitted && s.worker.Waiting? && s.commands != []
    ensures Inv(env, s.(worker := Took(s.commands[0]), commands := s.commands[1..]), pure)
  {
    hide Inv, Flow, CommandsOk, Matches, Genuine;
    var t := s.(worker := Took(s.commands[0]), commands := s.commands[1..]);
    assert Queue(t) == Queue(s) && InFlight(t) == InFlight(s);
    forall m | PipeOk(s, pure, m) ensures ResultsOk(t, pure)
    {
      assert forall i :: 0 <= i < |t.results| ==> ResultOk(s, s.results[i], pure);
    }
    hide PipeOk, ResultsOk, InFlight, Queue;
    HandsOver(env, s, t, pure);
  }

  lemma {:induction false} SendResultKeeps(env: Env, s: System, pure: bool)
    requires Inv(env, s, pure) && s.owner.epoch in s.owner.admitted && s.worker.Sending?
    ensures Inv(env, s.(results := s.results + [s.worker.result], worker := Waiting), pure)
    ensures Inv(env, s.(worker := Offering(s.worker.result)), pure)
  {
    hide Inv, Flow, CommandsOk, Matches, Genuine;
    var t, u := s.(results := s.results + [s.worker.result], worker := Waiting), s.(worker := Offering(s.worker.result));
    BlocksPush(s.results, s.worker.result);
    assert InFlight(t) == InFlight(s) == InFlight(u) && Queue(t) == Queue(s) == Queue(u);
    forall m | PipeOk(s, pure, m) ensures ResultsOk(t, pure) && ResultsOk(u, pure)
    {
      ResultsMove(s, t, pure);
      ResultsMove(s, u, pure);
    }
    hide PipeOk, ResultsOk, InFlight, Queue;
    HandsOver(env, s, t, pure);
    HandsOver(env, s, u, pure);
  }

  lemma {:induction false} ResultsMove(s: System, t: System, pure: bool)
    requires s.owner.epoch in s.owner.admitted && ResultsOk(s, pure) && s.worker.Sending?
    requires t == s.(results := s.results + [s.worker.result], worker := Waiting) || t == s.(worker := Offering(s.worker.result))
    ensures ResultsOk(t, pure)
  {
    assert forall i :: 0 <= i < |s.results| ==> ResultOk(s, s.results[i], pure);
    hide Genuine;
  }

  // A result the owner has fenced off is not missed.
  lemma {:induction false} StalePipe(s: System, pure: bool, m: nat)
    requires s.owner.epoch in s.owner.admitted && s.worker.Offering? && PipeOk(s, pure, m)
    requires s.worker.result.fence != s.owner.fence
    ensures PipeOk(s.(worker := Waiting), pure, m)
  {
    hide Tiles, JobsTile, Matches, Genuine, JobOk;
    var r, t := s.worker.result, s.(worker := Waiting);
    assert forall i :: 0 <= i < |s.results| ==> ResultOk(s, s.results[i], pure);
    assert ResultOk(s, r, pure);
    var mid := TilesSplit(Blocks(s.results), r.blocks, s.owner.fence, Front(s.owner.pending, s.owner.tail), m);
    TilesIgnores(r.blocks, s.owner.fence, mid, m);
    assert InFlight(t) == Blocks(s.results) && Queue(t) == Queue(s);
    hide Blocks;
  }

  lemma {:induction false} OfferKeeps(env: Env, s: System, pure: bool)
    requires Inv(env, s, pure) && s.owner.epoch in s.owner.admitted && s.worker.Offering?
    ensures Inv(env, s.(worker := if s.worker.result.fence != s.owner.fence then Waiting else Sending(s.worker.result)), pure)
  {
    var r := s.worker.result;
    if r.fence != s.owner.fence {
      hide PipeOk, Balanced, Faithful;
      if !s.wrapped {
        var m :| PipeOk(s, pure, m);
        StalePipe(s, pure, m);
      }
      WorkerMoves(env, s, s.(worker := Waiting), pure);
    } else {
      var t := s.(worker := Sending(r));
      forall m | PipeOk(s, pure, m) ensures ResultsOk(t, pure)
      {
        assert forall i :: 0 <= i < |s.results| ==> ResultOk(s, s.results[i], pure);
      }
      hide Inv;
      HandsOver(env, s, t, pure);
    }
  }

  // Leaving the loop: what was computed can still be received.
  lemma {:induction false} ExitKeeps(env: Env, s: System, t: System, pure: bool)
    requires Inv(env, s, pure) && s.owner.epoch in s.owner.admitted
    requires t == s.(worker := t.worker, commands := t.commands)
    requires if Looping(s) then t == Exit(s)
             else if s.worker.Dropping? then t == s.(worker := Leaving, commands := [])
             else t == s.(worker := Gone)
    ensures Inv(env, t, pure)
  {
    if !s.wrapped {
      var m :| PipeOk(s, pure, m);
      var mid := ExitPipe(s, t, pure, m);
    }
    hide PipeOk, Balanced, Faithful;
    WorkerMoves(env, s, t, pure);
  }

  lemma {:induction false} ExitPipe(s: System, t: System, pure: bool, m: nat) returns (mid: nat)
    requires s.owner.epoch in s.owner.admitted && PipeOk(s, pure, m)
    requires t == s.(worker := t.worker, commands := t.commands) && !Looping(t)
    requires t.commands == s.commands || t.commands == []
    ensures PipeOk(t, pure, mid)
  {
    var from := Front(s.owner.pending, s.owner.tail);
    mid := TilesSplit(Blocks(s.results), InHand(s), s.owner.fence, from, m);
    TilesBounds(InHand(s), s.owner.fence, mid, m);
    assert InFlight(t) == Blocks(s.results);
    ExitContent(s, t, pure);
    hide ContentOk, Tiles, Blocks;
  }

  lemma {:induction false} ExitContent(s: System, t: System, pure: bool)
    requires s.owner.epoch in s.owner.admitted && ContentOk(s, pure)
    requires t == s.(worker := t.worker, commands := t.commands) && !Looping(t)
    requires t.commands == s.commands || t.commands == []
    ensures ContentOk(t, pure)
  {
    hide Matches, Genuine, JobOk, CommandsOk;
    ExitCommands(s, t);
    assert forall i :: 0 <= i < |s.results| ==> ResultOk(s, s.results[i], pure);
  }

  lemma {:induction false} ExitCommands(s: System, t: System)
    requires s.owner.epoch in s.owner.admitted && CommandsOk(s)
    requires t == s.(worker := t.worker, commands := t.commands) && !Looping(t)
    requires t.commands == s.commands || t.commands == []
    ensures CommandsOk(t)
  {
    hide JobOk;
    var q, p := Queue(s), t.commands;
    if p != [] {
      assert q == p || q == [s.worker.command] + p;
      forall i | 0 <= i < |p|
        ensures p[i] == q[i + |q| - |p|]
      {
      }
    }
  }

  lemma {:induction false} WorkerStepKeeps(env: Env, s: System, pure: bool, limits: Limits)
    requires Inv(env, s, pure) && s.owner.epoch in s.owner.admitted && Settled(env, s.adapter)
    ensures Inv(env, WorkerRuns(env, limits, s), pure)
  {
    hide Inv, Compute, Settled;
    match s.worker
    case Waiting =>
      if s.commands != [] { TakeKeeps(env, s, pure); }
      else if !s.owner.sender { ExitKeeps(env, s, Exit(s), pure); }
    case Took(_) => ComputeKeeps(env, s, pure);
    case Offering(_) => OfferKeeps(env, s, pure);
    case Sending(_) => SendResultKeeps(env, s, pure);
    case Dropping => ExitKeeps(env, s, s.(worker := Leaving, commands := []), pure);
    case Leaving => ExitKeeps(env, s, s.(worker := Gone), pure);
    case Gone =>
  }

  // ---------------------------------------------------------------- every run

  lemma {:induction false} InvFacts(env: Env, s: System, pure: bool)
    requires Inv(env, s, pure)
    ensures Settled(env, s.adapter) && s.owner.epoch in s.owner.admitted
  {
  }

  lemma {:induction false} ExecKeeps(env: Env, limits: Limits, s: System, step: AecWorker.Step, pure: bool)
    requires Inv(env, s, pure)
    ensures Settled(env, s.adapter) && s.owner.epoch in s.owner.admitted
    ensures Inv(env, Exec(env, limits, s, step), pure)
  {
    InvFacts(env, s, pure);
    hide Inv, OwnerRuns, WorkerRuns, Begin, Settled;
    match step
    case OwnerStep => OwnerStepKeeps(env, s, pure, limits);
    case WorkerStep => WorkerStepKeeps(env, s, pure, limits);
    case WorkerDies => if Looping(s) { ExitKeeps(env, s, Exit(s), pure); }
    case _ => if s.pc.Idle? { CallKeeps(env, s, pure, limits, step); }
  }

  lemma {:induction false} StartPipe(env: Env, epoch: nat, start: nat, pure: bool)
    ensures PipeOk(AecWorker.Start(env, epoch, start), pure, start)
  {
    var s := AecWorker.Start(env, epoch, start);
    assert s.adapter.refEnd == s.adapter.emitted == s.adapter.end == start && !s.adapter.closed;
    assert epoch in s.owner.admitted && s.owner.admitted[epoch] == Stream(start, []);
    hide New, ContentOk, Flow;
    StartContent(s, pure);
    StartFlow(s, start);
  }

  /** Nothing sent, nothing computed, nothing heard. */
  ghost predicate Quiescent(s: System)
  {
    s.owner.fence == s.active == 1 && s.commands == [] && s.results == [] && s.worker == Waiting
  }

  lemma {:induction false} StartContent(s: System, pure: bool)
    requires Quiescent(s) && s.adapter.refEnd <= s.adapter.end && !s.adapter.closed && !s.jobRefused && !s.resultRefused
    requires s.owner.epoch in s.owner.admitted && s.owner.admitted[s.owner.epoch] == s.heard && s.heard.mic == []
    ensures ContentOk(s, pure)
  {
    hide Matches, CommandsOk, ResultsOk;
    NothingMatches(s.heard);
    NothingSent(s);
    NothingComputed(s, pure);
  }

  lemma {:induction false} NothingSent(s: System)
    requires s.owner.epoch in s.owner.admitted && s.commands == [] && s.worker == Waiting && !s.adapter.closed
    ensures CommandsOk(s)
  {
    hide JobOk;
    assert |Queue(s)| == 0;
  }

  lemma {:induction false} NothingComputed(s: System, pure: bool)
    requires s.owner.epoch in s.owner.admitted && s.results == [] && s.worker == Waiting
    ensures ResultsOk(s, pure)
  {
    hide ResultOk;
  }

  lemma {:induction false} StartFlow(s: System, start: nat)
    requires Quiescent(s) && s.owner.pending == [] && s.owner.tail == s.adapter.emitted == s.adapter.end == start
    ensures Flow(s, start)
  {
    assert Queue(s) == [] && InFlight(s) == [];
    hide Tiles, JobsTile, Queue, InFlight;
    NothingTiles(1, start);
    JobsAbsent([], 1, start);
  }

  lemma {:induction false} NothingTiles(fence: nat, at: nat)
    ensures Tiles([], fence, at, at)
  {
  }

  lemma {:induction false} NothingMatches(stream: Stream)
    requires stream.mic == []
    ensures Matches(stream, stream.origin, stream.mic)
  {
  }

  lemma {:induction false} StartBooks(epoch: nat, start: nat, pure: bool)
    ensures Balanced(Owner(epoch, start, 1, true, [], 0, 0, false, [], map[epoch := Stream(start, [])], start), start, pure)
  {
    hide Matches, Genuine;
    var o := Owner(epoch, start, 1, true, [], 0, 0, false, [], map[epoch := Stream(start, [])], start);
    forall e, p ensures Copies(o.out, e, p) + Held(o, start, e, p) == Owed(o.admitted, e, p) {
      assert Copies([], e, p) == 0;
    }
  }

  lemma {:induction false} StartAdapter(env: Env, epoch: nat, start: nat, pure: bool)
    requires env.config.Valid() && (pure ==> PureDelay(env))
    ensures AdapterOk(env, AecWorker.Start(env, epoch, start), pure)
  {
    hide PureDelay, Faithful;
    NewFaithful(env, 1, start, pure);
    assert map[][1 := start] == map[1 := start] && map[][1 := Stream(start, [])] == map[1 := Stream(start, [])];
  }

  lemma {:induction false} StartKeeps(env: Env, epoch: nat, start: nat, pure: bool)
    requires env.config.Valid() && (pure ==> PureDelay(env))
    ensures Inv(env, AecWorker.Start(env, epoch, start), pure)
  {
    hide PureDelay, AdapterOk, PipeOk, Balanced, New;
    StartAdapter(env, epoch, start, pure);
    StartPipe(env, epoch, start, pure);
    StartBooks(epoch, start, pure);
  }

  /** Any sequence of owner calls, owner steps, worker steps and worker death. */
  ghost function RunSystem(env: Env, limits: Limits, epoch: nat, start: nat, pure: bool, steps: seq<AecWorker.Step>): (s: System)
    requires env.config.Valid() && (pure ==> PureDelay(env))
    ensures Inv(env, s, pure)
    decreases |steps|
  {
    if steps == [] then StartKeeps(env, epoch, start, pure); AecWorker.Start(env, epoch, start)
    else
      var s := RunSystem(env, limits, epoch, start, pure, steps[..|steps| - 1]);
      ExecKeeps(env, limits, s, steps[|steps| - 1], pure);
      Exec(env, limits, s, steps[|steps| - 1])
  }

  /** In every interleaving, the copies of a position published plus those still
      held are one if the position was admitted in that epoch and none if it was
      not; `retained` counts what is held, and raw audio is the original. */
  lemma {:induction false} EveryAdmittedSampleOnce(env: Env, limits: Limits, epoch: nat, start: nat, steps: seq<AecWorker.Step>)
    requires env.config.Valid()
    ensures var o := RunSystem(env, limits, epoch, start, false, steps).owner;
            && (forall e, p :: Copies(o.out, e, p) + (if e == o.epoch then HeldCopies(o.pending, p) else 0)
                               == Owed(o.admitted, e, p))
            && o.retained == Unused(o.pending)
            && (forall i :: 0 <= i < |o.out| ==>
                  && o.out[i].epoch in o.admitted
                  && (o.out[i].kind.Raw? ==> Matches(o.admitted[o.out[i].epoch], o.out[i].start, o.out[i].samples)))
  {
    hide RunSystem, Inv, Balanced, Copies, HeldCopies, Owed, Unused;
    var s := RunSystem(env, limits, epoch, start, false, steps);
    var o := s.owner;
    var end := BooksEnd(env, s, false);
    forall e, p
      ensures Copies(o.out, e, p) + (if e == o.epoch then HeldCopies(o.pending, p) else 0) == Owed(o.admitted, e, p)
    {
      BalancedMeans(o, end, false, e, p);
    }
    BalancedMeans(o, end, false, 0, 0);
    BalancedIsGenuine(o, end, false);
  }

  // Where the originals held end, whatever the owner is doing.
  lemma {:induction false} BooksEnd(env: Env, s: System, pure: bool) returns (end: nat)
    requires Inv(env, s, pure)
    ensures Balanced(s.owner, end, pure)
  {
    hide Balanced, PcOk, SentAll, AdapterOk, PipeOk;
    end := if Balanced(s.owner, s.owner.tail, pure) then s.owner.tail else s.owner.next;
  }

  lemma {:induction false} BalancedIsGenuine(o: Owner, end: nat, pure: bool)
    requires Balanced(o, end, pure)
    ensures forall i :: 0 <= i < |o.out| ==>
              && o.out[i].epoch in o.admitted
              && (o.out[i].kind.Raw? || pure ==> Matches(o.admitted[o.out[i].epoch], o.out[i].start, o.out[i].samples))
  {
    hide ExactlyOnce, Chain, HeldGenuine, Matches;
  }

  /** With a pure-delay backend the published audio is the admitted audio, sample
      for sample, through every timeout, reset, cancellation and death. */
  lemma {:induction false} PureDelayPublishesOriginals(env: Env, limits: Limits, epoch: nat, start: nat, steps: seq<AecWorker.Step>)
    requires env.config.Valid() && PureDelay(env)
    ensures var o := RunSystem(env, limits, epoch, start, true, steps).owner;
            forall i :: 0 <= i < |o.out| ==>
              && o.out[i].epoch in o.admitted
              && Matches(o.admitted[o.out[i].epoch], o.out[i].start, o.out[i].samples)
  {
    hide RunSystem, Inv, Balanced;
    var s := RunSystem(env, limits, epoch, start, true, steps);
    var end := BooksEnd(env, s, true);
    BalancedIsGenuine(s.owner, end, true);
  }

  /** Until the fence runs out, no job is refused by the adapter and no result by
      the owner. */
  lemma {:induction false} NothingIsRefused(env: Env, limits: Limits, epoch: nat, start: nat, steps: seq<AecWorker.Step>)
    requires env.config.Valid()
    ensures var s := RunSystem(env, limits, epoch, start, false, steps);
            s.jobRefused || s.resultRefused ==> s.wrapped
  {
    hide RunSystem, BooksOk, PcOk, SentAll, AdapterOk, Flow, CommandsOk, ResultsOk;
    var s := RunSystem(env, limits, epoch, start, false, steps);
    assert Inv(env, s, false);
  }
}
