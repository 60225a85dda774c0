/** The capture supervisor: one tap, a recovery budget, cleanup fencing and gap
    accounting, with the history of the session kept beside it. */
module CaptureSupervisor {
  import opened Outcomes
  import opened CaptureWatchdog
  import opened SupervisorHistory

  const HEALTHY_NS: nat := 10_000_000_000

  datatype Change = DefaultOutput | DefaultInput | DeviceList | StreamFormat | WillSleep | DidWake

  datatype Settings = Settings(
    watchdog: Config, quiet: nat, ceiling: nat, retryBackoff: nat, maxRetryBackoff: nat, maxAttempts: nat,
    maxIneffective: nat, triggers: set<Change>, minInterval: nat, rebuildOnChange: bool)

  /** A failure; `Cleanup(false)` left native resources unreleased. */
  datatype TapError = Cleanup(released: bool) | AlreadyRunning | Other

  /** How opening and starting a tap turned out. */
  datatype Opening = OpenFails(error: TapError) | StartFails(error: TapError) | Starts(format: nat)

  datatype Outage = Outage(start: nat, silent: Option<Gap>, reason: GapReason, attempt: nat, next: nat)

  datatype Mode = Stopped | Running | Recovering(outage: Outage) | Abandoned(outage: Outage) | Quarantined

  datatype Event =
    | StallDetected(fault: Fault)
    | DevicesChanged(changes: set<Change>, rebuilt: bool)
    | Recovered(attempt: nat, format: nat, gaps: seq<Gap>)
    | DeliveryConfirmed
    | RecoveryFailed(failed: nat, retryIn: nat)
    | GaveUp(attempts: nat)
    | RecoveryIneffective(rebuilds: nat, recurring: Fault)
    | NoAudioDetected(lasted: nat)

  datatype Outcome = NotRunning | Fine | Quiet(lasted: nat) | Waiting | Rebuilt | Retrying | GivenUp

  datatype Budget = Budget(attempts: nat, ineffective: nat, lastAttempt: Option<nat>, lastRebuild: Option<nat>, rebuilds: nat)

  datatype Delivery = Delivery(confirmed: bool, since: Option<nat>, previous: Option<Poll>, notified: bool) {
    function Restart(): Delivery { Delivery(false, None, None, notified) }
  }

  /** Changes are acted on once they have been quiet for a while, or have gone on
      for too long. */
  datatype Debounce = Debounce(first: Option<nat>, last: nat) {
    function Signal(now: nat): Debounce { Debounce(Some(if first.None? then now else first.value), now) }

    predicate Fires(quiet: nat, ceiling: nat, now: nat)
    {
      first.Some? && (Less(now, last) >= quiet || Less(now, first.value) >= ceiling)
    }

    function Clear(): Debounce { Debounce(None, last) }
  }

  /** The debounce after signals at these moments. */
  function Burst(times: seq<nat>): Debounce
  {
    if times == [] then Debounce(None, 0) else Burst(times[..|times| - 1]).Signal(times[|times| - 1])
  }

  /** A burst is settled exactly when its last signal is the quiet time ago, or its
      first the ceiling; without a signal there is nothing to settle. */
  lemma {:induction false} BurstSettles(times: seq<nat>, quiet: nat, ceiling: nat, now: nat)
    requires forall i :: 0 <= i < |times| ==> times[i] <= now
    ensures Burst(times).Fires(quiet, ceiling, now) <==>
              times != [] && (times[|times| - 1] + quiet <= now || times[0] + ceiling <= now)
    ensures !Burst(times).Clear().Fires(quiet, ceiling, now)
  {
    BurstIs(times);
  }

  lemma {:induction false} BurstIs(times: seq<nat>)
    ensures times == [] ==> Burst(times).first.None?
    ensures times != [] ==> Burst(times).first == Some(times[0]) && Burst(times).last == times[|times| - 1]
  {
    if times != [] { BurstIs(times[..|times| - 1]); }
  }

  // ---------------------------------------------------------------- the session's history

  /** The gaps told so far and the outage being lived through. */
  datatype Story = Story(session: nat, gaps: seq<Gap>, outage: Option<nat>, clock: nat) {
    /** Everything before this moment is accounted for. */
    function Reported(): nat { if gaps == [] then session else LastEnd(gaps) }
  }

  /** Taps, attempts and gaps; every sustained delivery and which of them were
      announced; where in the event log the session began; how many retries were
      asked for. */
  datatype Past = Past(
    acts: seq<Act>, tries: seq<Try>, story: Story, confirmed: seq<Watch>, announced: seq<nat>, mark: nat, asked: nat)

  /** The gaps told in a stretch of events. */
  function ToldGaps(events: seq<Event>): seq<Gap>
  {
    if events == [] then []
    else
      var last := events[|events| - 1];
      ToldGaps(events[..|events| - 1]) + if last.Recovered? then last.gaps else []
  }

  function Confirmations(events: seq<Event>): nat
  {
    if events == [] then 0
    else Confirmations(events[..|events| - 1]) + if events[|events| - 1].DeliveryConfirmed? then 1 else 0
  }

  /** The session's events tell exactly its gaps, and each announced delivery is an
      entry of its own among the sustained ones. */
  ghost predicate EventsOk(events: seq<Event>, mark: nat, gaps: seq<Gap>, announced: seq<nat>, deliveries: nat)
  {
    && mark <= |events| && ToldGaps(events[mark..]) == gaps
    && Confirmations(events) == |announced| && Entries(announced, deliveries)
  }

  lemma {:induction false} EventTold(events: seq<Event>, e: Event, mark: nat, gaps: seq<Gap>, announced: seq<nat>, deliveries: nat)
    requires EventsOk(events, mark, gaps, announced, deliveries)
    ensures !e.DeliveryConfirmed? ==>
              EventsOk(events + [e], mark, gaps + if e.Recovered? then e.gaps else [], announced, deliveries)
    ensures e.DeliveryConfirmed? ==> EventsOk(events + [e], mark, gaps, announced + [deliveries], deliveries + 1)
    ensures EventsOk(events, mark, gaps, announced, deliveries + 1)
    ensures EventsOk(events, |events|, [], announced, deliveries)
  {
    var longer := events + [e];
    assert longer[..|longer| - 1] == events;
    assert longer[mark..] == events[mark..] + [e];
    assert longer[mark..][..|longer[mark..]| - 1] == events[mark..];
    assert gaps + [] == gaps && events[|events|..] == [];
    EntriesGrow(announced, deliveries);
  }

  /** What only deliveries, requests and new sessions change. */
  ghost predicate SameRecord(p: Past, q: Past)
  {
    q.confirmed == p.confirmed && q.announced == p.announced && q.mark == p.mark && q.asked == p.asked
  }

  /** At most one delivery is recorded, the one this poll completed, and only that
      one may be announced. */
  ghost predicate Records(c: Config, p: Past, q: Past, poll: Poll)
  {
    && q.mark == p.mark && q.asked == p.asked
    && (q.confirmed == p.confirmed ==> q.announced == p.announced)
    && (q.confirmed != p.confirmed ==>
          && |q.confirmed| == |p.confirmed| + 1 && q.confirmed[..|p.confirmed|] == p.confirmed
          && var w := q.confirmed[|p.confirmed|];
          && w.polls != [] && w.polls[|w.polls| - 1] == poll && TenSeconds(c, w)
          && (q.announced == p.announced || q.announced == p.announced + [|p.confirmed|]))
  }

  ghost predicate TapsOk(mode: Mode, tap: Option<nat>, blocked: bool, acts: seq<Act>)
  {
    && Orderly(acts)
    && Held(acts) == (if tap.None? then {} else {tap.value})
    && (blocked <==> CleanupUnreleased in acts)
    && (tap.Some? <==> mode.Running? || mode.Quarantined?)
    && (blocked ==> mode.Stopped? || mode.Abandoned?)
  }

  predicate Spaced(c: Settings, budget: Budget, at: nat)
  {
    budget.lastAttempt.Some? ==> budget.lastAttempt.value + c.minInterval <= at
  }

  ghost predicate BudgetOk(c: Settings, mode: Mode, budget: Budget, tries: seq<Try>)
  {
    && Patient(tries, c.maxAttempts, c.minInterval)
    && budget.attempts == Spent(tries) && budget.lastAttempt == LastAttempt(tries)
    && (mode.Recovering? ==> budget.attempts < c.maxAttempts && Spaced(c, budget, mode.outage.next))
  }

  ghost predicate OutageOk(r: Outage, story: Story)
  {
    && story.outage == Some(r.start) && r.start <= story.clock
    && (if r.silent.None? then story.Reported() <= r.start
        else
          && story.Reported() <= r.silent.value.start <= r.silent.value.end == r.start
          && r.silent.value.kind == GapKind.Silent)
  }

  ghost predicate GapsOk(mode: Mode, fault: Option<nat>, armed: nat, story: Story)
  {
    && InOrder(story.gaps) && (story.gaps != [] ==> story.session <= story.gaps[0].start)
    && (mode.Running? || mode.Quarantined? ==>
          story.Reported() <= armed && (fault.Some? ==> story.Reported() <= fault.value <= story.clock))
    && (mode.Recovering? || mode.Abandoned? ==> OutageOk(mode.outage, story))
    && story.Reported() <= story.clock
  }

  /** The last poll shows frames and buffers advancing, close to the one before,
      with no fault and something audible since arming. */
  ghost predicate Delivering(c: Config, w: Watch)
  {
    var n := |w.polls|;
    && n >= 2 && w.Timed()
    && w.polls[n - 1].now - w.polls[n - 2].now < c.noBufferTimeout
    && w.polls[n - 2].activity.frames < w.polls[n - 1].activity.frames
    && w.polls[n - 2].activity.buffers < w.polls[n - 1].activity.buffers
    && w.polls[n - 2].activity.silent <= w.polls[n - 1].activity.silent
    && Observed(c, w) == Healthy && Audible(w, n)
  }

  /** Every poll since poll k was delivering. */
  ghost predicate Sustained(c: Config, w: Watch, k: nat)
  {
    1 <= k < |w.polls| && forall m :: k < m <= |w.polls| ==> Delivering(c, w.Prefix(m))
  }

  /** Ten seconds of consecutive delivering polls. */
  ghost predicate TenSeconds(c: Config, w: Watch)
  {
    exists k: nat :: Sustained(c, w, k) && w.polls[|w.polls| - 1].now - w.polls[k].now >= 10 * 1_000_000_000
  }

  ghost predicate DeliveryOk(c: Config, w: Watch, d: Delivery)
  {
    && (d.previous.Some? ==> w.polls != [] && d.previous.value == w.polls[|w.polls| - 1])
    && (d.since.Some? ==>
          d.previous.Some? && exists k: nat :: Sustained(c, w, k) && w.polls[k].now == d.since.value)
  }

  /** The supervisor remembers the last poll of the watch, and when its present run
      of delivering polls began. */
  ghost predicate DeliveryExact(c: Config, w: Watch, d: Delivery)
  {
    && (d.previous.Some? <==> w.polls != [])
    && (d.since.Some? <==> Delivering(c, w))
    && (d.since.Some? ==> forall k: nat :: Sustained(c, w, k) ==> d.since.value <= w.polls[k].now)
  }

  /** When the last rebuild was: its gap ends there. */
  function LastRebuild(gaps: seq<Gap>): Option<nat>
  {
    if gaps == [] then None else Some(LastEnd(gaps))
  }

  ghost predicate ConfirmedOk(c: Config, confirmed: seq<Watch>)
  {
    forall i :: 0 <= i < |confirmed| ==> TenSeconds(c, confirmed[i])
  }

  const IDLE: Delivery := Delivery(false, None, None, false)

  /** What a poll's native calls, at most one stop and one open, will return. */
  datatype Native = Native(stop: Option<TapError>, how: Opening) {
    predicate Works() { stop.None? && how.Starts? }
  }

  /** Exponential, capped. */
  function Backoff(c: Settings, attempt: nat): (r: nat)
    ensures r <= c.maxRetryBackoff
  {
    var shift := if attempt < 1 then 0 else if attempt - 1 < 16 then attempt - 1 else 16;
    var scaled := Delay(c.retryBackoff, shift);
    if scaled < c.maxRetryBackoff then scaled else c.maxRetryBackoff
  }

  function Delay(base: nat, doublings: nat): nat { base * Pow2(doublings) }

  function Pow2(n: nat): (r: nat)
    ensures r >= 1
  {
    if n == 0 then 1 else 2 * Pow2(n - 1)
  }

  function Least(x: nat, y: nat): nat { if x < y then x else y }

  /** The first retry waits the base delay, each later one twice as long as the one
      before, up to the cap and for at most sixteen doublings. */
  lemma {:induction false} BackoffDoubles(c: Settings, attempt: nat)
    ensures Backoff(c, 0) == Backoff(c, 1) == Least(c.retryBackoff, c.maxRetryBackoff)
    ensures 1 <= attempt <= 16 ==> Backoff(c, attempt + 1) == Least(2 * Backoff(c, attempt), c.maxRetryBackoff)
    ensures attempt >= 17 ==> Backoff(c, attempt) == Backoff(c, 17)
  {
    BackoffIs(c, 0);
    if 1 <= attempt <= 16 {
      BackoffIs(c, attempt - 1);
      BackoffIs(c, attempt);
      DelayDoubles(c.retryBackoff, attempt);
    }
    hide Pow2;
  }

  lemma {:induction false} BackoffIs(c: Settings, doublings: nat)
    requires doublings <= 16
    ensures Backoff(c, doublings + 1) == Least(Delay(c.retryBackoff, doublings), c.maxRetryBackoff)
  {
    hide Pow2;
  }

  lemma {:induction false} DelayDoubles(base: nat, n: nat)
    requires n >= 1
    ensures Delay(base, n) == 2 * Delay(base, n - 1)
  {
    assert Pow2(n) == 2 * Pow2(n - 1);
  }

  lemma {:induction false} SustainedGrows(c: Config, w: Watch, p: Poll, k: nat)
    requires Sustained(c, w, k) && Delivering(c, After(w, p))
    ensures Sustained(c, After(w, p), k)
  {
    var longer := After(w, p);
    forall m | k < m <= |longer.polls| ensures Delivering(c, longer.Prefix(m)) {
      if m <= |w.polls| {
        assert longer.polls[..m] == w.polls[..m];
        assert longer.Prefix(m) == w.Prefix(m);
      } else {
        assert longer.polls[..m] == longer.polls;
      }
    }
  }

  lemma {:induction false} SustainedStarts(c: Config, w: Watch)
    requires Delivering(c, w)
    ensures Sustained(c, w, |w.polls| - 1)
  {
    assert w.polls[..|w.polls|] == w.polls;
  }

  /** Of the watch in force: whether one of its polls reported a fault, and whether
      it was in force during quarantine. */
  datatype Seen = Seen(faulted: bool, quarantined: bool)

  /** A running session has acted on every fault its watch reported, unless that
      watch is left over from quarantine. */
  ghost predicate Attentive(mode: Mode, seen: Seen)
  {
    && (mode.Quarantined? ==> seen.quarantined)
    && (mode.Running? && seen.faulted ==> seen.quarantined)
  }

  /** What the history of a valid session says. */
  ghost predicate Safe(c: Settings, events: seq<Event>, past: Past)
  {
    && EventsOk(events, past.mark, past.story.gaps, past.announced, |past.confirmed|)
    && RenewalsOk(past.tries, |past.confirmed|, past.asked, false)
    && Orderly(past.acts)
    && Patient(past.tries, c.maxAttempts, c.minInterval)
    && InOrder(past.story.gaps)
    && (forall rate :: Padding(past.story.gaps, rate) <= FramesIn(Less(past.story.clock, past.story.session), rate))
    && ConfirmedOk(c.watchdog, past.confirmed)
  }

  lemma {:induction false} ValidIsSafe(c: Settings, mode: Mode, budget: Budget, fault: Option<nat>, armed: nat, tap: Option<nat>, blocked: bool,
                                          events: seq<Event>, past: Past)
    requires TapsOk(mode, tap, blocked, past.acts) && BudgetOk(c, mode, budget, past.tries)
    requires GapsOk(mode, fault, armed, past.story) && ConfirmedOk(c.watchdog, past.confirmed)
    requires EventsOk(events, past.mark, past.story.gaps, past.announced, |past.confirmed|)
    requires RenewalsOk(past.tries, |past.confirmed|, past.asked, false)
    ensures Safe(c, events, past)
  {
    hide EventsOk, RenewalsOk, ConfirmedOk, Orderly, Patient;
    var story := past.story;
    forall rate: nat ensures Padding(story.gaps, rate) <= FramesIn(Less(story.clock, story.session), rate) {
      PaddingBounded(story.gaps, story.session, rate);
      if story.gaps != [] {
        FramesGrow(LastEnd(story.gaps) - story.session, story.clock - story.session, rate);
      }
    }
  }

  lemma {:induction false} OpenAct(id: nat, acts: seq<Act>)
    requires TapsOk(Stopped, None, false, acts)
    ensures TapsOk(Running, Some(id), false, acts + [Open(id)])
  {
    OrderlyAppend(acts, Open(id));
    HeldAppend(acts, Open(id));
  }

  lemma {:induction false} CloseAct(mode: Mode, id: nat, blocked: bool, acts: seq<Act>)
    requires TapsOk(mode, Some(id), blocked, acts)
    ensures TapsOk(Stopped, None, blocked, acts + [Close(id)])
  {
    OrderlyAppend(acts, Close(id));
    HeldAppend(acts, Close(id));
  }

  lemma {:induction false} HandOutAct(mode: Mode, id: nat, blocked: bool, acts: seq<Act>)
    requires TapsOk(mode, Some(id), blocked, acts)
    ensures TapsOk(Stopped, None, blocked, acts + [HandOut(id)])
  {
    OrderlyAppend(acts, HandOut(id));
    HeldAppend(acts, HandOut(id));
  }

  lemma {:induction false} NoTapAct(mode: Mode, blocked: bool, acts: seq<Act>)
    requires TapsOk(mode, None, blocked, acts)
    ensures TapsOk(Stopped, None, blocked, acts)
  {
  }

  lemma {:induction false} BlockAct(blocked: bool, acts: seq<Act>)
    requires TapsOk(Stopped, None, blocked, acts)
    ensures TapsOk(Stopped, None, true, acts + [CleanupUnreleased])
  {
    OrderlyAppend(acts, CleanupUnreleased);
    HeldAppend(acts, CleanupUnreleased);
  }

  lemma {:induction false} FirstAttempt(c: Settings, at: nat, rebuilds: nat)
    requires c.maxAttempts >= 1
    ensures BudgetOk(c, Stopped, Budget(1, 0, Some(at), None, rebuilds), [Attempt(at)])
  {
    PatientAppend([], Attempt(at), c.maxAttempts, c.minInterval);
    assert [] + [Attempt(at)] == [Attempt(at)];
  }

  lemma {:induction false} SourceAwaited(c: Settings, next: Mode, tap: Option<nat>, blocked: bool, acts: seq<Act>, b: Budget, told: Story,
                      fault: Option<nat>, armed: nat)
    requires c.maxAttempts >= 1 && TapsOk(Stopped, tap, blocked, acts)
    requires told.gaps == [] && told.outage == Some(told.session) && told.session <= told.clock
    requires b == Budget(1, 0, Some(told.session), None, b.rebuilds)
    requires next.Abandoned? || (next.Recovering? && !blocked && 1 < c.maxAttempts)
    requires next.outage.start == told.session && next.outage.silent.None?
    requires told.session + c.minInterval <= next.outage.next
    ensures TapsOk(next, tap, blocked, acts) && BudgetOk(c, next, b, [Attempt(told.session)]) && GapsOk(next, fault, armed, told)
  {
    FirstAttempt(c, told.session, b.rebuilds);
  }

  /** One more poll either continues the delivering run, starts one, or ends it. */
  lemma {:induction false} DeliveryGrows(c: Config, w: Watch, p: Poll, d: Delivery)
    requires DeliveryOk(c, w, d) && Delivering(c, After(w, p))
    ensures var since := if d.since.None? then p.now else d.since.value;
            exists k: nat :: Sustained(c, After(w, p), k) && After(w, p).polls[k].now == since
  {
    if d.since.Some? {
      var k: nat :| Sustained(c, w, k) && w.polls[k].now == d.since.value;
      SustainedGrows(c, w, p, k);
    } else {
      SustainedStarts(c, After(w, p));
    }
  }

  // A run of delivering polls was one before its last poll too.
  lemma {:induction false} SustainedWas(c: Config, w: Watch, p: Poll, k: nat)
    requires Sustained(c, After(w, p), k)
    ensures Delivering(c, After(w, p))
    ensures k < |w.polls| ==> Sustained(c, w, k) && Delivering(c, w)
  {
    var longer := After(w, p);
    assert longer.Prefix(|longer.polls|) == longer;
    if k < |w.polls| {
      forall m | k < m <= |w.polls| ensures Delivering(c, w.Prefix(m)) {
        assert longer.polls[..m] == w.polls[..m];
        assert longer.Prefix(m) == w.Prefix(m);
      }
      assert w.Prefix(|w.polls|) == w;
    }
  }

  lemma {:induction false} NoDelivery(c: Config, w: Watch, p: Poll, d: Delivery)
    requires !Delivering(c, After(w, p))
    ensures !TenSeconds(c, After(w, p)) && DeliveryExact(c, After(w, p), d.(previous := Some(p), since := None))
  {
    hide Delivering;
    forall k: nat ensures !Sustained(c, After(w, p), k) {
      if Sustained(c, After(w, p), k) {
        SustainedWas(c, w, p, k);
        assert false;
      }
    }
    hide Sustained;
  }

  /** Where the present run began, and whether it is ten seconds long. */
  lemma {:induction false} MoreDelivery(c: Config, w: Watch, p: Poll, d: Delivery, since: nat)
    requires DeliveryOk(c, w, d) && DeliveryExact(c, w, d) && Delivering(c, After(w, p)) && After(w, p).Timed()
    requires since == if d.since.None? then p.now else d.since.value
    ensures DeliveryExact(c, After(w, p), d.(previous := Some(p), since := Some(since)))
    ensures TenSeconds(c, After(w, p)) <==> Less(p.now, since) >= HEALTHY_NS
  {
    var longer := After(w, p);
    DeliveryGrows(c, w, p, d);
    var first: nat :| Sustained(c, longer, first) && longer.polls[first].now == since;
    hide Delivering;
    forall k: nat | Sustained(c, longer, k) ensures since <= longer.polls[k].now {
      SustainedWas(c, w, p, k);
      if k < |w.polls| {
        assert d.since.Some? && d.since.value <= w.polls[k].now;
      } else {
        assert longer.polls[k] == p && longer.polls[first].now <= p.now;
      }
    }
    assert first < |longer.polls| && longer.polls[|longer.polls| - 1] == p;
    hide Sustained;
  }

  lemma {:induction false} BudgetRenewed(c: Settings, mode: Mode, b: Budget, tries: seq<Try>, t: Try)
    requires BudgetOk(c, mode, b, tries) && c.maxAttempts >= 1 && t.NewBudget?
    ensures BudgetOk(c, mode, b.(attempts := 0, ineffective := 0), tries + [t])
  {
    PatientAppend(tries, t, c.maxAttempts, c.minInterval);
  }

  /** Only the attempt count and schedule may differ. */
  predicate SameOutage(r: Outage, s: Outage)
  {
    r.start == s.start && r.silent == s.silent && r.reason == s.reason
  }

  /** An outage either goes on as it was, or ends with its gaps reported from
      its original start. */
  ghost predicate Persists(r: Outage, mode: Mode, before: seq<Gap>, after: seq<Gap>, now: nat)
  {
    if mode.Recovering? || mode.Abandoned? then SameOutage(mode.outage, r) && after == before
    else mode.Running? && after == before + GapsOf(r, now)
  }

  /** The boundaries a fault gives its outage. */
  function OutageOf(f: Fault, now: nat): Outage
  {
    match f
    case NoBuffers(since, _) => Outage(since, None, TapStalledNoBuffers, 0, 0)
    case SilentWhileOutputRunning(since, _) =>
      Outage(now, Some(Gap(since, now, GapKind.Silent, TapStalledSilent)), RebuildWindow, 0, 0)
  }

  /** The answer of a recovery says where the session is now. */
  predicate Answered(outcome: Outcome, mode: Mode)
  {
    match outcome
    case Rebuilt => mode.Running?
    case Retrying => mode.Recovering?
    case Waiting => mode.Recovering?
    case GivenUp => mode.Abandoned? || mode.Quarantined?
    case _ => false
  }

  /** One event tells of the attempt or of giving up; waiting is not told. */
  predicate Told(before: seq<Event>, after: seq<Event>, outcome: Outcome)
  {
    if outcome == Waiting then after == before
    else
      && |after| == |before| + 1 && before <= after
      && var e := after[|before|];
      if outcome == Rebuilt then e.Recovered? else if outcome == Retrying then e.RecoveryFailed? else e.GaveUp?
  }

  /** What a poll starts from and what it leaves. */
  datatype View = View(
    mode: Mode, fault: Option<nat>, watch: Watch, budget: Budget, debounce: Debounce, pending: set<Change>,
    past: Past, events: seq<Event>)

  ghost predicate SameTape(p: Past, q: Past) { q.acts == p.acts && q.story.gaps == p.story.gaps }

  /** The tap is given up for an outage with these boundaries; with the budget spent
      it is left in place instead, quarantined. */
  ghost predicate Recovers(v: View, u: View, r: Outage, spent: bool, now: nat)
  {
    if spent then u.mode.Quarantined? && u.past == v.past
    else !u.mode.Quarantined? && Persists(r, u.mode, v.past.story.gaps, u.past.story.gaps, now)
  }

  /** How one attempt ends: told by one event; running with the outage reported from
      its start, or without a tap and the outage as it was. */
  ghost predicate AttemptEnds(c: Settings, v: View, u: View, r: Outage, how: Opening, blocked: bool, now: nat, outcome: Outcome)
  {
    var n := v.budget.attempts + 1;
    && u.past.tries == v.past.tries + [Attempt(now)] && SameRecord(v.past, u.past)
    && Answered(outcome, u.mode) && outcome != Waiting && u.budget.ineffective == v.budget.ineffective
    && u.events == v.events + [AttemptTold(r, n, now, how, u.mode)]
    && (u.mode.Abandoned? <==> !how.Starts? && (blocked || n >= c.maxAttempts))
    && (u.mode.Recovering? ==> u.mode.outage.next == now + Max(Backoff(c, n), c.minInterval))
    && if how.Starts? then
         u.mode.Running? && u.past.story == v.past.story.(gaps := v.past.story.gaps + GapsOf(r, now)) && Forgotten(u)
       else
         && (u.mode.Recovering? || u.mode.Abandoned?) && SameOutage(u.mode.outage, r) && u.past.story == v.past.story
         && u.debounce == v.debounce && u.pending == v.pending
  }

  lemma {:induction false} AttemptWorked(c: Settings, v: View, u: View, r: Outage, how: Opening, blocked: bool, now: nat)
    requires how.Starts? && u.mode.Running? && Forgotten(u)
    requires u.past == v.past.(acts := u.past.acts, tries := v.past.tries + [Attempt(now)],
                               story := v.past.story.(gaps := v.past.story.gaps + GapsOf(r, now)))
    requires u.budget.ineffective == v.budget.ineffective
    requires u.events == v.events + [Recovered(v.budget.attempts + 1, how.format, GapsOf(r, now))]
    ensures AttemptEnds(c, v, u, r, how, blocked, now, Rebuilt)
  {
    hide GapsOf;
  }

  lemma {:induction false} AttemptFailed(c: Settings, v: View, u: View, r: Outage, how: Opening, blocked: bool, now: nat, outcome: Outcome)
    requires !how.Starts? && (u.mode.Recovering? || u.mode.Abandoned?) && SameOutage(u.mode.outage, r)
    requires Answered(outcome, u.mode) && outcome != Waiting && u.budget.ineffective == v.budget.ineffective
    requires u.past == v.past.(acts := u.past.acts, tries := v.past.tries + [Attempt(now)])
    requires u.mode.Abandoned? <==> blocked || v.budget.attempts + 1 >= c.maxAttempts
    requires u.mode.Abandoned? ==> u.events == v.events + [GaveUp(v.budget.attempts + 1)]
    requires u.mode.Recovering? ==>
               && u.mode.outage.next == now + Max(Backoff(c, v.budget.attempts + 1), c.minInterval)
               && u.events == v.events + [RecoveryFailed(v.budget.attempts + 1, u.mode.outage.next - now)]
    requires u.debounce == v.debounce && u.pending == v.pending
    ensures AttemptEnds(c, v, u, r, how, blocked, now, outcome)
  {
    hide GapsOf, Backoff;
  }

  ghost predicate RecoveryEntered(c: Settings, v: View, u: View, r: Outage, how: Opening, was: bool, blocked: bool, now: nat, outcome: Outcome)
  {
    if was || now < r.next then
      && u.mode == (if was then Abandoned(r) else Recovering(r)) && outcome == (if was then GivenUp else Waiting)
      && u.past == v.past && u.budget == v.budget && u.debounce == v.debounce && u.pending == v.pending
      && u.events == v.events + (if was then [GaveUp(v.budget.attempts)] else [])
    else AttemptEnds(c, v, u, r, how, blocked, now, outcome)
  }

  predicate Released(stop: Option<TapError>) { stop.None? || stop.value == Cleanup(true) }

  /** What giving up a tap leads to. With the budget spent nothing else changes.
      Otherwise the session waits exactly if the tap was released and the last
      attempt is too recent, and then until it no longer is. */
  ghost predicate RecoveryBegins(c: Settings, v: View, u: View, r: Outage, native: Native, now: nat, outcome: Outcome)
  {
    var spent := v.budget.attempts >= c.maxAttempts;
    && SameRecord(v.past, u.past) && u.budget.ineffective == v.budget.ineffective
    && Answered(outcome, u.mode) && Told(v.events, u.events, outcome) && (Forgotten(v) ==> Forgotten(u))
    && Recovers(v, u, r, spent, now)
    && (spent ==> u.events == v.events + [GaveUp(v.budget.attempts)])
    && (u.past.tries == v.past.tries || u.past.tries == v.past.tries + [Attempt(now)])
    && (outcome == Waiting <==> !spent && Released(native.stop) && !Spaced(c, v.budget, now))
    && (outcome == Waiting ==> u.mode.outage.next == v.budget.lastAttempt.value + c.minInterval)
    && (!spent && native.Works() && Spaced(c, v.budget, now) ==> u.mode.Running?)
  }

  lemma {:induction false} BeganWith(c: Settings, v: View, mid: View, u: View, r: Outage, native: Native, blocked: bool, now: nat, outcome: Outcome)
    requires v.budget.attempts < c.maxAttempts
    requires mid == v.(past := v.past.(acts := mid.past.acts, story := v.past.story.(outage := mid.past.story.outage)))
    requires var next := if v.budget.lastAttempt.None? then now else Max(now, v.budget.lastAttempt.value + c.minInterval);
             RecoveryEntered(c, mid, u, r.(next := next), native.how, !Released(native.stop), blocked, now, outcome)
    ensures RecoveryBegins(c, v, u, r, native, now, outcome)
  {
    hide Backoff;
  }

  /** A callback's fault comes first, and the watchdog is not asked. */
  ghost predicate AnswersCallback(c: Settings, v: View, u: View, now: nat, outcome: Outcome)
    requires v.fault.Some?
  {
    if v.mode.Quarantined? then u.mode.Quarantined? && u.past == v.past && u.events == v.events && outcome == GivenUp
    else
      && Recovers(v, u, Outage(v.fault.value, None, CallbackFault, 0, 0), v.budget.attempts >= c.maxAttempts, now)
      && Answered(outcome, u.mode) && Told(v.events, u.events, outcome)
      && SameRecord(v.past, u.past) && u.budget.ineffective == v.budget.ineffective
  }

  /** Then the watchdog's: told, counted against the rebuilds so far, recovered from. */
  ghost predicate AnswersFault(c: Settings, v: View, u: View, f: Fault, now: nat, outcome: Outcome)
  {
    if v.mode.Quarantined? then u.mode.Quarantined? && u.past == v.past && u.events == v.events && outcome == GivenUp
    else
      && Recovers(v, u, OutageOf(f, now), v.budget.ineffective >= c.maxIneffective || v.budget.attempts >= c.maxAttempts, now)
      && Answered(outcome, u.mode) && v.events + [StallDetected(f)] <= u.events
      && SameRecord(v.past, u.past) && u.budget.ineffective == v.budget.ineffective + 1
  }

  /** The last rebuild is too recent for a device change to cause another. */
  predicate JustRebuilt(c: Settings, gaps: seq<Gap>, now: nat) { gaps != [] && now < LastEnd(gaps) + c.minInterval }

  /** Then a settled change: told, and answered by a rebuild exactly if the policy
      asks for it, the last one is long enough ago and the session is running. */
  ghost predicate AnswersChange(c: Settings, v: View, u: View, now: nat, outcome: Outcome)
  {
    var rebuilt := v.mode.Running? && c.rebuildOnChange && !JustRebuilt(c, v.past.story.gaps, now);
    && v.events + [DevicesChanged(v.pending, rebuilt)] <= u.events && SameRecord(v.past, u.past)
    && u.budget.ineffective == v.budget.ineffective
    && if rebuilt then
         && Recovers(v, u, Outage(now, None, GapReason.DeviceChanged, 0, 0), v.budget.attempts >= c.maxAttempts, now)
         && Answered(outcome, u.mode)
       else
         && u.mode == v.mode && u.past == v.past && outcome == (if v.mode.Running? then Fine else GivenUp)
         && u.events == v.events + [DevicesChanged(v.pending, false)]
         && (v.mode.Running? ==> u.watch == Watch(now, []))
  }

  /** The delivery is recorded, renews the budget in its name, ends quarantine, and
      is announced exactly if there had been trouble not yet announced. */
  ghost predicate Renewed(v: View, u: View, confirmed: bool)
  {
    var n := |v.past.confirmed|;
    var news := !confirmed && (v.budget.attempts > 0 || v.mode.Quarantined?);
    && u.mode.Running? && u.budget == v.budget.(attempts := 0, ineffective := 0)
    && u.past == v.past.(tries := v.past.tries + [NewBudget(Delivered(n))], confirmed := v.past.confirmed + [v.watch],
                         announced := v.past.announced + if news then [n] else [])
    && u.events == v.events + if news then [DeliveryConfirmed] else []
  }

  /** Ten seconds of delivery by this poll renew the budget and end quarantine. */
  ghost predicate Earns(c: Settings, v: View, u: View)
  {
    var ten := TenSeconds(c.watchdog, u.watch);
    && u.mode == (if ten then Running else v.mode)
    && u.budget == (if ten then v.budget.(attempts := 0, ineffective := 0) else v.budget)
    && u.past.confirmed == v.past.confirmed + (if ten then [u.watch] else [])
    && SameTape(v.past, u.past) && u.past.story == v.past.story && v.events <= u.events
    && u.debounce == v.debounce && u.pending == v.pending
  }

  ghost predicate AnswersQuiet(v: View, u: View, verdict: Verdict, outcome: Outcome)
  {
    && u.mode == v.mode && u.past == v.past && u.budget == v.budget && u.watch == v.watch && v.events <= u.events
    && u.debounce == v.debounce && u.pending == v.pending
    && outcome == if v.debounce.first.Some? then Waiting else if verdict.NoAudio? then Quiet(verdict.lasted) else Fine
  }

  /** No change is waiting. */
  ghost predicate Forgotten(u: View) { u.debounce.first.None? && u.pending == {} }

  /** The tap left in place is rebuilt, from its callback's fault if it had one. */
  ghost predicate Retries(v: View, u: View, spent: bool, now: nat, outcome: Outcome)
  {
    var r := if v.fault.Some? then Outage(v.fault.value, None, CallbackFault, 0, 0) else Outage(now, None, RebuildWindow, 0, 0);
    Recovers(v, u, r, spent, now) && Answered(outcome, u.mode) && Told(v.events, u.events, outcome)
  }

  /** An attempt is made as soon as it is due. */
  function Attempted(now: nat, due: nat): seq<Try> { if due <= now then [Attempt(now)] else [] }

  /** When a retry is due: the spacing still holds. */
  function RetryDue(c: Settings, b: Budget, now: nat): nat
  {
    if b.lastAttempt.None? then now else b.lastAttempt.value + c.minInterval
  }

  /** With the changes signalled since the last poll. */
  ghost function Noted(c: Settings, v: View, signal: set<Change>, now: nat): View
  {
    v.(pending := v.pending + signal, past := v.past.(story := v.past.story.(clock := now)),
       debounce := if signal * c.triggers == {} then v.debounce else v.debounce.Signal(now))
  }

  /** What a poll of a live tap must lead to, by what it finds. */
  ghost predicate Responds(c: Settings, v: View, u: View, p: Poll, outcome: Outcome)
  {
    var w := After(v.watch, p);
    && w.Timed()
    && if v.fault.Some? then AnswersCallback(c, v, u, p.now, outcome)
       else if Observed(c.watchdog, w).Faulted? then AnswersFault(c, v, u, Observed(c.watchdog, w).fault, p.now, outcome)
       else
         exists mid: View ::
           && mid.watch == w && Earns(c, v, mid)
           && if mid.debounce.Fires(c.quiet, c.ceiling, p.now) then AnswersChange(c, mid, u, p.now, outcome) && Forgotten(u)
              else AnswersQuiet(mid, u, Observed(c.watchdog, w), outcome)
  }

  /** What is said about a recovery attempt. */
  function AttemptTold(r: Outage, attempt: nat, now: nat, how: Opening, mode: Mode): Event
  {
    if how.Starts? then Recovered(attempt, how.format, GapsOf(r, now))
    else if mode.Recovering? then RecoveryFailed(attempt, Less(mode.outage.next, now))
    else GaveUp(attempt)
  }

  // The gaps depend on the outage only, not on how often it was retried.
  lemma {:induction false} SameGaps(r: Outage, s: Outage, now: nat)
    requires SameOutage(r, s)
    ensures GapsOf(r, now) == GapsOf(s, now)
  {
  }

  /** The silence that was written, if any, then the hole that was not. */
  function GapsOf(r: Outage, now: nat): seq<Gap>
  {
    (if r.silent.Some? then [r.silent.value] else []) + [Gap(r.start, now, Unwritten, r.reason)]
  }

  lemma {:induction false} InOrderExtends(gaps: seq<Gap>, silent: Option<Gap>, hole: Gap)
    requires InOrder(gaps) && hole.kind == Unwritten && hole.start <= hole.end
    requires silent.None? ==> LastEnd(gaps) <= hole.start
    requires silent.Some? ==>
               LastEnd(gaps) <= silent.value.start <= silent.value.end == hole.start && silent.value.kind == GapKind.Silent
    ensures InOrder(if silent.None? then gaps + [hole] else gaps + [silent.value] + [hole])
  {
    if silent.None? { HoleExtends(gaps, hole); } else { SilenceExtends(gaps, silent.value, hole); }
    hide InOrder;
  }

  lemma {:induction false} HoleExtends(gaps: seq<Gap>, hole: Gap)
    requires InOrder(gaps) && hole.kind == Unwritten && LastEnd(gaps) <= hole.start <= hole.end
    ensures InOrder(gaps + [hole])
  {
  }

  lemma {:induction false} SilenceExtends(gaps: seq<Gap>, silent: Gap, hole: Gap)
    requires InOrder(gaps) && hole.kind == Unwritten && silent.kind == GapKind.Silent
    requires LastEnd(gaps) <= silent.start <= silent.end == hole.start <= hole.end
    ensures InOrder(gaps + [silent] + [hole])
  {
    var longer := gaps + [silent] + [hole];
    assert forall i :: 0 <= i < |gaps| ==> longer[i] == gaps[i];
    assert longer[|gaps|] == silent && longer[|gaps| + 1] == hole;
  }

  lemma {:induction false} GapsExtend(story: Story, r: Outage)
    requires InOrder(story.gaps) && (story.gaps != [] ==> story.session <= story.gaps[0].start)
    requires OutageOk(r, story) && story.Reported() <= story.clock
    ensures GapsOk(Running, None, story.clock, story.(gaps := story.gaps + GapsOf(r, story.clock)))
  {
    var hole := Gap(r.start, story.clock, Unwritten, r.reason);
    var longer := story.gaps + GapsOf(r, story.clock);
    if r.silent.None? {
      assert longer == story.gaps + [hole];
    } else {
      assert longer == story.gaps + [r.silent.value] + [hole];
    }
    InOrderExtends(story.gaps, r.silent, hole);
  }

  lemma {:induction false} GapsExtendStopped(story: Story, r: Outage, fault: Option<nat>)
    requires GapsOk(Stopped, fault, 0, story) && OutageOk(r, story)
    ensures GapsOk(Running, None, story.clock, story.(gaps := story.gaps + GapsOf(r, story.clock)))
  {
    hide OutageOk, InOrder, GapsOf;
    GapsExtend(story, r);
  }

  // ---------------------------------------------------------------- changes of mode

  ghost predicate Live(mode: Mode) { mode.Running? || mode.Quarantined? }

  lemma {:induction false} StopsOk(c: Settings, mode: Mode, b: Budget, tries: seq<Try>, fault: Option<nat>, armed: nat, story: Story)
    requires BudgetOk(c, mode, b, tries) && GapsOk(mode, fault, armed, story)
    ensures BudgetOk(c, Stopped, b, tries) && GapsOk(Stopped, fault, armed, story)
  {
  }

  // A stopped session's gaps do not depend on any tap.
  lemma {:induction false} NoTapGaps(fault: Option<nat>, armed: nat, f: Option<nat>, a: nat, story: Story, start: nat)
    requires GapsOk(Stopped, fault, armed, story)
    ensures GapsOk(Stopped, f, a, story) && GapsOk(Stopped, f, a, story.(outage := Some(start)))
  {
  }

  lemma {:induction false} LiveOk(c: Settings, mode: Mode, next: Mode, tap: Option<nat>, blocked: bool, acts: seq<Act>,
                                     b: Budget, tries: seq<Try>, fault: Option<nat>, armed: nat, story: Story)
    requires Live(mode) && Live(next)
    requires TapsOk(mode, tap, blocked, acts) && BudgetOk(c, mode, b, tries) && GapsOk(mode, fault, armed, story)
    ensures TapsOk(next, tap, blocked, acts) && BudgetOk(c, next, b, tries) && GapsOk(next, fault, armed, story)
    ensures GapsOk(next, fault, story.clock, story)
  {
    hide Orderly, Held, Patient, InOrder;
  }

  lemma {:induction false} OutageOpens(c: Settings, next: Mode, blocked: bool, acts: seq<Act>, b: Budget, tries: seq<Try>,
                                          fault: Option<nat>, armed: nat, story: Story)
    requires TapsOk(Stopped, None, blocked, acts) && BudgetOk(c, Stopped, b, tries) && GapsOk(Stopped, fault, armed, story)
    requires (next.Recovering? || next.Abandoned?) && OutageOk(next.outage, story)
    requires next.Recovering? ==> !blocked && b.attempts < c.maxAttempts && Spaced(c, b, next.outage.next)
    ensures TapsOk(next, None, blocked, acts) && BudgetOk(c, next, b, tries) && GapsOk(next, fault, armed, story)
  {
    hide Orderly, Held, Patient, InOrder, OutageOk;
  }

  // The other way: what an outage knows once it is taken up again.
  lemma {:induction false} OutageEnds(c: Settings, mode: Mode, tap: Option<nat>, blocked: bool, acts: seq<Act>, b: Budget, tries: seq<Try>,
                                         fault: Option<nat>, armed: nat, story: Story)
    requires TapsOk(mode, tap, blocked, acts) && BudgetOk(c, mode, b, tries) && GapsOk(mode, fault, armed, story)
    requires mode.Recovering? || mode.Abandoned?
    ensures tap.None? && TapsOk(Stopped, None, blocked, acts) && BudgetOk(c, Stopped, b, tries)
    ensures GapsOk(Stopped, fault, 0, story) && GapsOk(Stopped, fault, armed, story) && OutageOk(mode.outage, story)
    ensures mode.Recovering? ==> b.attempts < c.maxAttempts && Spaced(c, b, mode.outage.next)
  {
    hide Orderly, Held, Patient, InOrder, OutageOk;
  }

  lemma {:induction false} OutageSame(r: Outage, s: Outage, story: Story)
    requires SameOutage(r, s) && OutageOk(r, story)
    ensures OutageOk(s, story)
  {
  }

  lemma {:induction false} AttemptCharged(c: Settings, b: Budget, tries: seq<Try>, now: nat)
    requires BudgetOk(c, Stopped, b, tries) && b.attempts < c.maxAttempts && Spaced(c, b, now)
    ensures BudgetOk(c, Stopped, b.(attempts := b.attempts + 1, lastAttempt := Some(now)), tries + [Attempt(now)])
  {
    PatientAppend(tries, Attempt(now), c.maxAttempts, c.minInterval);
    hide Patient, Spent, LastAttempt;
  }

  lemma {:induction false} RebuildCharged(c: Settings, b: Budget, tries: seq<Try>, rebuilt: Budget)
    requires BudgetOk(c, Stopped, b, tries) && rebuilt.attempts == b.attempts && rebuilt.lastAttempt == b.lastAttempt
    ensures BudgetOk(c, Running, rebuilt, tries)
  {
  }

  lemma {:induction false} IneffectiveOk(c: Settings, mode: Mode, b: Budget, tries: seq<Try>)
    requires BudgetOk(c, mode, b, tries)
    ensures BudgetOk(c, mode, b.(ineffective := b.ineffective + 1), tries)
  {
  }

  /** The outage a fault opens starts after everything already reported. */
  lemma {:induction false} FaultOutage(mode: Mode, fault: Option<nat>, armed: nat, story: Story, f: Fault)
    requires Live(mode) && GapsOk(mode, fault, armed, story) && armed <= Since(f) <= story.clock
    ensures var r := OutageOf(f, story.clock); OutageOk(r, story.(outage := Some(r.start)))
  {
    hide InOrder;
  }

  /** So does one opened now, or at a callback's fault. */
  lemma {:induction false} PlainOutage(mode: Mode, fault: Option<nat>, armed: nat, story: Story, reason: GapReason)
    requires Live(mode) && GapsOk(mode, fault, armed, story)
    ensures OutageOk(Outage(story.clock, None, reason, 0, 0), story.(outage := Some(story.clock)))
    ensures fault.Some? ==> OutageOk(Outage(fault.value, None, reason, 0, 0), story.(outage := Some(fault.value)))
  {
    hide InOrder;
  }

  // The last rebuild was no later than now.
  lemma {:induction false} RebuildTime(c: Settings, mode: Mode, fault: Option<nat>, armed: nat, story: Story)
    requires GapsOk(mode, fault, armed, story)
    ensures var last := LastRebuild(story.gaps);
            JustRebuilt(c, story.gaps, story.clock) <==> last.Some? && Less(story.clock, last.value) < c.minInterval
  {
    hide InOrder, OutageOk;
  }

  lemma {:induction false} EarnsRecords(c: Settings, v: View, u: View)
    requires Earns(c, v, u)
    ensures v.events <= u.events && (v.mode.Quarantined? && !u.mode.Quarantined? ==> |u.past.confirmed| > |v.past.confirmed|)
    ensures |u.past.confirmed| >= |v.past.confirmed|
  {
  }

  lemma {:induction false} AnnounceOk(events: seq<Event>, past: Past, news: bool)
    requires EventsOk(events, past.mark, past.story.gaps, past.announced, |past.confirmed|)
    ensures EventsOk(events + (if news then [DeliveryConfirmed] else []), past.mark, past.story.gaps,
                     past.announced + (if news then [|past.confirmed|] else []), |past.confirmed| + 1)
  {
    EventTold(events, DeliveryConfirmed, past.mark, past.story.gaps, past.announced, |past.confirmed|);
    assert events + [] == events && past.announced + [] == past.announced;
    hide EventsOk;
  }

  lemma {:induction false} AttentiveOn(mode: Mode, seen: Seen)
    requires Live(mode) && Attentive(mode, seen)
    ensures Attentive(Running, seen)
  {
  }

  lemma {:induction false} AfterStall(c: Settings, v: View, mid: View, u: View, f: Fault, native: Native, now: nat, outcome: Outcome)
    requires v.mode.Running? && v.budget.ineffective < c.maxIneffective
    requires mid == v.(budget := v.budget.(ineffective := v.budget.ineffective + 1), events := v.events + [StallDetected(f)])
    requires RecoveryBegins(c, mid, u, OutageOf(f, now), native, now, outcome)
    ensures AnswersFault(c, v, u, f, now, outcome)
    ensures v.budget.attempts < c.maxAttempts && Spaced(c, v.budget, now) && native.Works() ==> u.mode.Running?
  {
    hide Answered, Persists;
  }

  lemma {:induction false} CallbackRecords(c: Settings, v: View, u: View, now: nat, outcome: Outcome)
    requires v.fault.Some? && AnswersCallback(c, v, u, now, outcome)
    ensures SameRecord(v.past, u.past) && v.events <= u.events && (v.mode.Quarantined? ==> u.mode.Quarantined?)
  {
    hide Recovers, Answered;
  }

  lemma {:induction false} FaultRecords(c: Settings, v: View, u: View, f: Fault, now: nat, outcome: Outcome)
    requires AnswersFault(c, v, u, f, now, outcome)
    ensures SameRecord(v.past, u.past) && v.events <= u.events && (v.mode.Quarantined? ==> u.mode.Quarantined?)
  {
    hide Recovers, Answered;
  }

  // Nothing the answer to a fault depends on changed with the poll itself.
  lemma {:induction false} SameAnswer(c: Settings, v: View, mid: View, u: View, f: Fault, now: nat, outcome: Outcome)
    requires AnswersFault(c, mid, u, f, now, outcome)
    requires mid.mode == v.mode && mid.budget == v.budget && mid.past == v.past && mid.events == v.events
    ensures AnswersFault(c, v, u, f, now, outcome)
  {
    hide Persists;
  }

  lemma {:induction false} FreshSession(c: Settings, rebuilds: nat, now: nat, deliveries: nat, asked: nat)
    ensures BudgetOk(c, Running, Budget(0, 0, None, None, rebuilds), [])
    ensures GapsOk(Running, None, now, Story(now, [], None, now))
    ensures RenewalsOk([], deliveries, asked, false)
  {
  }

  lemma {:induction false} FirstRenewals(at: nat, deliveries: nat, asked: nat)
    ensures RenewalsOk([Attempt(at)], deliveries, asked, false)
  {
    RenewalsAppend([], Attempt(at), deliveries, asked, false);
    assert [] + [Attempt(at)] == [Attempt(at)];
  }

  lemma {:induction false} NewWatch(c: Config, armed: nat, d: Delivery)
    requires d.since.None? && d.previous.None?
    ensures DeliveryOk(c, Watch(armed, []), d) && DeliveryExact(c, Watch(armed, []), d)
  {
  }

  // Only the observations count, not what was announced.
  lemma {:induction false} SameDelivery(c: Config, w: Watch, d: Delivery, e: Delivery)
    requires DeliveryOk(c, w, d)
    requires (e.since == d.since && e.previous == d.previous) || (e.since.None? && e.previous.None?)
    ensures DeliveryOk(c, w, e)
    ensures DeliveryExact(c, w, d) && e.since == d.since && e.previous == d.previous ==> DeliveryExact(c, w, e)
  {
    hide Delivering, Sustained;
  }

  lemma {:induction false} GapsEnd(gaps: seq<Gap>, r: Outage, now: nat)
    ensures LastRebuild(gaps + GapsOf(r, now)) == Some(now)
  {
  }

  lemma {:induction false} TimePasses(mode: Mode, fault: Option<nat>, armed: nat, story: Story, now: nat)
    requires GapsOk(mode, fault, armed, story) && story.clock <= now
    ensures GapsOk(mode, fault, armed, story.(clock := now))
    ensures fault.None? ==> GapsOk(mode, Some(now), armed, story.(clock := now))
  {
    hide InOrder;
  }

  lemma {:induction false} ConfirmedGrows(c: Config, confirmed: seq<Watch>, w: Watch)
    requires ConfirmedOk(c, confirmed) && TenSeconds(c, w)
    ensures ConfirmedOk(c, confirmed + [w])
  {
    hide TenSeconds;
  }

  const SECOND: nat := 1_000_000_000

  const LEFTOVER_CONFIG: Config := Config(11 * SECOND, 30 * SECOND, 100 * SECOND, true)

  /** Something audible, silence, nothing for a while on an idle output, and silence
      again on an active one. */
  const LEFTOVER: Watch := Watch(0, [
    Poll(0, Activity(1, 0, 1), Active), Poll(0, Activity(2, 0, 2), Active), Poll(0, Activity(3, 1, 3), Active),
    Poll(11 * SECOND, Activity(3, 1, 3), OutputActivity.Idle), Poll(11 * SECOND, Activity(4, 2, 4), Active),
    Poll(21 * SECOND, Activity(5, 3, 5), Active), Poll(30 * SECOND, Activity(6, 4, 6), Active)])

  /** A watch left over from quarantine can hold a starvation fault nobody acted on:
      ten seconds of silent buffers release it, and the same run goes on to end in a
      silence fault. */
  lemma {:induction false} LeftoverRunCanSpan()
    ensures ReportedStarving(LEFTOVER_CONFIG, LEFTOVER.Prefix(4)) && TenSeconds(LEFTOVER_CONFIG, LEFTOVER.Prefix(6))
    ensures SilenceFault(LEFTOVER_CONFIG, LEFTOVER) && !ActiveThroughout(LEFTOVER_CONFIG, LEFTOVER)
  {
    var c, w := LEFTOVER_CONFIG, LEFTOVER;
    LeftoverClocks();
    PrefixStarved(c, w, 4);
    LeftoverDelivers();
  }

  lemma {:induction false} LeftoverClocks()
    ensures var c, w := LEFTOVER_CONFIG, LEFTOVER;
            && w.Timed() && Heard(w, 1)
            && LastFrames(w, 5) == 11 * SECOND && LastFrames(w, 6) == 21 * SECOND && LastFrames(w, 7) == 30 * SECOND
            && Starved(c, w, 4)
            && QuietFrom(w, 5) == 2 && QuietFrom(w, 6) == 2 && QuietFrom(w, 7) == 2
            && CorroboratedFrom(c, w, 5) == 2 && CorroboratedFrom(c, w, 6) == 2 && CorroboratedFrom(c, w, 7) == 2
  {
    var c, w := LEFTOVER_CONFIG, LEFTOVER;
    assert LastFrames(w, 2) == 0 && LastFrames(w, 3) == 0 && LastFrames(w, 4) == 0;
    assert QuietFrom(w, 2) == 0 && QuietFrom(w, 3) == 2 && QuietFrom(w, 4) == 2;
    assert CorroboratedFrom(c, w, 2) == 0 && CorroboratedFrom(c, w, 3) == 2 && CorroboratedFrom(c, w, 4) == 2;
  }

  lemma {:induction false} LeftoverDelivers()
    ensures TenSeconds(LEFTOVER_CONFIG, LEFTOVER.Prefix(6))
  {
    LeftoverPoll(5);
    LeftoverPoll(6);
    hide Delivering, Sustained;
    SustainedStarts(LEFTOVER_CONFIG, LEFTOVER.Prefix(5));
    assert After(LEFTOVER.Prefix(5), LEFTOVER.polls[5]) == LEFTOVER.Prefix(6);
    SustainedGrows(LEFTOVER_CONFIG, LEFTOVER.Prefix(5), LEFTOVER.polls[5], 4);
  }

  lemma {:induction false} LeftoverPoll(m: nat)
    requires 5 <= m <= 6
    ensures Delivering(LEFTOVER_CONFIG, LEFTOVER.Prefix(m))
  {
    var c, w := LEFTOVER_CONFIG, LEFTOVER.Prefix(m);
    LeftoverClocks();
    HistoryGrows(c, w, LEFTOVER);
    hide LastFrames, QuietFrom, CorroboratedFrom;
    assert Heard(w, 1);
    assert w.Moment(2) == 0;
  }

  // ---------------------------------------------------------------- the object

  class Supervisor {
    const config: Settings
    const watchdog: Watchdog
    var mode: Mode
    var tap: Option<nat>
    var format: Option<nat>
    var active: bool
    var fault: Option<nat>
    var signal: set<Change>
    var pending: set<Change>
    var debounce: Debounce
    var budget: Budget
    var delivery: Delivery
    var retryRequested: bool
    var blocked: bool
    var opens: nat
    var events: seq<Event>
    ghost var past: Past
    ghost var seen: Seen

    /** The watchdog is sound and its clock is not ahead. */
    ghost predicate WatchOk()
      reads this, watchdog
    {
      && config.maxAttempts >= 1
      && watchdog.Valid() && watchdog.config == config.watchdog
      && watchdog.lastPoll <= past.story.clock
      && DeliveryOk(config.watchdog, watchdog.watch, delivery)
      && ConfirmedOk(config.watchdog, past.confirmed)
      && (!seen.faulted ==> FaultFree(config.watchdog, watchdog.watch))
      && LogOk()
    }

    /** The emitted events and the renewals agree with the record. */
    ghost predicate LogOk()
      reads this
    {
      && EventsOk(events, past.mark, past.story.gaps, past.announced, |past.confirmed|)
      && RenewalsOk(past.tries, |past.confirmed|, past.asked, retryRequested)
    }

    ghost predicate Valid()
      reads this, watchdog
    {
      Consistent() && Attentive(mode, seen)
    }

    ghost function Look(): View
      reads this, watchdog
    {
      View(mode, fault, watchdog.watch, budget, debounce, pending, past, events)
    }

    /** What is remembered of rebuilds and deliveries is what happened. */
    ghost predicate Remembers()
      reads this, watchdog
    {
      && budget.lastRebuild == LastRebuild(past.story.gaps)
      && (fault.None? && tap.Some? ==> DeliveryExact(config.watchdog, watchdog.watch, delivery))
    }

    /** All of it but for a fault that is just being handled. */
    ghost predicate Consistent()
      reads this, watchdog
    {
      && Remembers()
      && WatchOk()
      && TapsOk(mode, tap, blocked, past.acts)
      && BudgetOk(config, mode, budget, past.tries)
      && GapsOk(mode, fault, watchdog.watch.armed, past.story)
    }

    constructor (config: Settings)
      requires config.maxAttempts >= 1
      ensures Valid() && fresh(watchdog) && mode == Stopped && events == []
    {
      this.config := config;
      watchdog := new Watchdog(config.watchdog);
      mode, tap, format, active, fault := Stopped, None, None, false, None;
      signal, pending, debounce := {}, {}, Debounce(None, 0);
      budget, delivery := Budget(0, 0, None, None, 0), IDLE;
      retryRequested, blocked, opens, events := false, false, 0, [];
      past, seen := Past([], [], Story(0, [], None, 0), [], [], 0, 0), Seen(false, false);
    }

    /** Whatever has been called so far, the session's history and the events that
        tell of it are safe. */
    lemma {:induction false} HistoryIsSafe()
      requires Valid()
      ensures Safe(config, events, past)
    {
      hide watchdog.Valid, FaultFree, DeliveryExact, TapsOk, BudgetOk, GapsOk, DeliveryOk, Safe, EventsOk, RenewalsOk;
      RenewalsAppend(past.tries, Attempt(0), |past.confirmed|, past.asked, retryRequested);
      ValidIsSafe(config, mode, budget, fault, watchdog.watch.armed, tap, blocked, events, past);
    }

    /** The events of the session tell exactly its gaps, and deliveries are
        announced as often as the record says. */
    lemma {:induction false} EventsTell()
      requires Valid()
      ensures past.mark <= |events| && ToldGaps(events[past.mark..]) == past.story.gaps
      ensures Confirmations(events) == |past.announced|
    {
      hide watchdog.Valid, FaultFree, DeliveryExact, TapsOk, BudgetOk, GapsOk, DeliveryOk, ConfirmedOk, RenewalsOk, Entries;
    }

    /** A silence fault that a running session acts on had output active at every
        poll of its run, unless the watch is left over from quarantine. */
    lemma {:induction false} ActedOnIsCorroborated(p: Poll)
      requires Valid() && mode.Running? && !seen.quarantined
      requires SilenceFault(config.watchdog, After(watchdog.watch, p))
      ensures ActiveThroughout(config.watchdog, After(watchdog.watch, p))
    {
      hide watchdog.Valid, TapsOk, BudgetOk, GapsOk, DeliveryOk, ConfirmedOk, EventsOk, RenewalsOk, SilenceFault, ActiveThroughout;
      FaultFreeRun(config.watchdog, watchdog.watch, p);
    }

    // A tap is held only while it is watched.
    lemma {:induction false} WasLive()
      requires Consistent()
      ensures Live(mode) <==> tap.Some?
      ensures blocked ==> mode.Stopped? || mode.Abandoned?
    {
      hide watchdog.Valid, FaultFree, DeliveryExact, BudgetOk, GapsOk, DeliveryOk, ConfirmedOk, EventsOk, RenewalsOk, Orderly, Held;
    }

    /** Any event but those that report gaps or announce delivery. */
    method Emit(e: Event)
      requires LogOk() && !e.Recovered? && !e.DeliveryConfirmed?
      modifies this`events
      ensures LogOk() && events == old(events) + [e]
    {
      EventTold(events, e, past.mark, past.story.gaps, past.announced, |past.confirmed|);
      assert past.story.gaps + [] == past.story.gaps;
      hide EventsOk, RenewalsOk;
      events := events + [e];
    }

    /** A callback of the current tap reports an invalidated device. */
    method CallbackFails(at: nat)
      requires Valid() && past.story.clock <= at
      modifies this`fault, this`past
      ensures Valid()
      ensures fault == if old(fault).None? && active && tap.Some? then Some(at) else old(fault)
    {
      hide watchdog.Valid, FaultFree, DeliveryExact, TapsOk, BudgetOk, GapsOk, DeliveryOk, ConfirmedOk, EventsOk, RenewalsOk;
      TimePasses(mode, fault, watchdog.watch.armed, past.story, at);
      past := past.(story := past.story.(clock := at));
      if active && fault.None? && tap.Some? { fault := Some(at); }
    }

    method DeviceChanges(change: Change)
      requires Valid()
      modifies this`signal
      ensures Valid() && signal == old(signal) + {change}
    {
      hide watchdog.Valid, FaultFree, DeliveryExact, TapsOk, BudgetOk, GapsOk, DeliveryOk, ConfirmedOk, EventsOk, RenewalsOk;
      signal := signal + {change};
    }

    /** Remember resources that could not be released; nothing opens after. */
    method RememberCleanup(error: TapError)
      requires tap.None? && TapsOk(Stopped, None, blocked, past.acts)
      modifies this`blocked, this`past
      ensures blocked == (old(blocked) || error == Cleanup(false))
      ensures past == old(past).(acts := past.acts) && TapsOk(Stopped, None, blocked, past.acts)
    {
      hide TapsOk;
      if error == Cleanup(false) {
        BlockAct(blocked, past.acts);
        blocked, past := true, past.(acts := past.acts + [CleanupUnreleased]);
      }
    }

    /** Open a tap and start it with a fresh sink; a failure drops it. */
    method OpenTap(how: Opening) returns (ok: bool)
      requires tap.None? && !blocked && TapsOk(Stopped, None, false, past.acts)
      modifies this`opens, this`tap, this`active, this`fault, this`blocked, this`past
      ensures ok <==> how.Starts?
      ensures past == old(past).(acts := past.acts)
      ensures TapsOk(if ok then Running else Stopped, tap, blocked, past.acts)
      ensures if ok then fault.None? && active && tap.Some? else tap.None?
      ensures blocked <==> !ok && how.error == Cleanup(false)
    {
      hide TapsOk;
      var id := opens;
      opens := opens + 1;
      OpenAct(id, past.acts);
      past := past.(acts := past.acts + [Open(id)]);
      ok := how.Starts?;
      if !how.OpenFails? { active, fault := ok, None; }
      if ok {
        tap := Some(id);
      } else {
        CloseAct(Running, id, false, past.acts);
        past := past.(acts := past.acts + [Close(id)]);
        RememberCleanup(how.error);
      }
    }

    /** Stop the tap and drop it, whatever the stop reports. */
    method StopTap(result: Option<TapError>)
      requires TapsOk(mode, tap, blocked, past.acts)
      modifies this`tap, this`blocked, this`past
      ensures tap.None? && TapsOk(Stopped, None, blocked, past.acts) && past == old(past).(acts := past.acts)
      ensures blocked <==> old(blocked) || (old(tap).Some? && result.Some? && result.value != Cleanup(true))
    {
      if tap.None? { return; }
      hide TapsOk;
      CloseAct(mode, tap.value, blocked, past.acts);
      past := past.(acts := past.acts + [Close(tap.value)]);
      tap := None;
      if result.Some? {
        RememberCleanup(if result.value.Cleanup? then result.value else Cleanup(false));
      }
    }

    function NextAttemptAt(now: nat): (r: nat)
      reads this
      ensures now <= r && Spaced(config, budget, r)
      ensures r == now || (budget.lastAttempt.Some? && r == budget.lastAttempt.value + config.minInterval)
    {
      if budget.lastAttempt.None? then now else Max(now, budget.lastAttempt.value + config.minInterval)
    }

    /** Budget and spacing allow an attempt right away. */
    predicate CanRebuild(now: nat)
      reads this
    {
      !blocked && budget.attempts < config.maxAttempts && Spaced(config, budget, now)
    }

    /** One recovery attempt. A failure keeps the outage as it was. */
    method AttemptRebuild(now: nat, r: Outage, how: Opening) returns (outcome: Outcome)
      requires WatchOk() && past.story.clock == now
      requires tap.None? && !blocked && TapsOk(Stopped, None, false, past.acts)
      requires BudgetOk(config, Stopped, budget, past.tries) && budget.attempts < config.maxAttempts && Spaced(config, budget, now)
      requires GapsOk(Stopped, fault, 0, past.story) && OutageOk(r, past.story) && budget.lastRebuild == LastRebuild(past.story.gaps)
      modifies this, watchdog
      ensures Valid() && AttemptEnds(config, old(Look()), Look(), r, how, blocked, now, outcome)
    {
      hide watchdog.Valid, FaultFree, DeliveryExact, TapsOk, BudgetOk, GapsOk, DeliveryOk, ConfirmedOk, EventsOk, RenewalsOk, OutageOk, GapsOf;
      Charge(now);
      ghost var attempt := r.(attempt := budget.attempts);
      OutageSame(r, attempt, past.story);
      SameGaps(r, attempt, now);
      NoTapGaps(fault, 0, None, 0, past.story, 0);
      ghost var before := fault;
      var ok := OpenTap(how);
      NoTapGaps(before, 0, fault, 0, past.story, 0);
      hide AttemptEnds;
      if ok {
        Resume(now, r.(attempt := budget.attempts), how.format);
        outcome := Rebuilt;
        AttemptWorked(config, old(Look()), Look(), r, how, blocked, now);
      } else {
        outcome := RetryLater(now, r.(attempt := budget.attempts));
        AttemptFailed(config, old(Look()), Look(), r, how, blocked, now, outcome);
      }
    }

    /** One attempt is charged to the budget. */
    method Charge(now: nat)
      requires WatchOk() && BudgetOk(config, Stopped, budget, past.tries) && budget.attempts < config.maxAttempts && Spaced(config, budget, now)
      modifies this`budget, this`past
      ensures WatchOk() && BudgetOk(config, Stopped, budget, past.tries)
      ensures budget == old(budget).(attempts := old(budget.attempts) + 1, lastAttempt := Some(now))
      ensures past == old(past).(tries := old(past.tries) + [Attempt(now)])
    {
      hide watchdog.Valid, FaultFree, DeliveryExact, TapsOk, BudgetOk, GapsOk, DeliveryOk, ConfirmedOk, EventsOk, RenewalsOk, OutageOk;
      AttemptCharged(config, budget, past.tries, now);
      RenewalsAppend(past.tries, Attempt(now), |past.confirmed|, past.asked, retryRequested);
      budget := budget.(attempts := budget.attempts + 1, lastAttempt := Some(now));
      past := past.(tries := past.tries + [Attempt(now)]);
    }

    method RetryLater(now: nat, r: Outage) returns (outcome: Outcome)
      requires WatchOk() && past.story.clock == now && r.attempt == budget.attempts && budget.lastAttempt == Some(now)
      requires tap.None? && TapsOk(Stopped, None, blocked, past.acts) && BudgetOk(config, Stopped, budget, past.tries)
      requires GapsOk(Stopped, fault, 0, past.story) && OutageOk(r, past.story) && budget.lastRebuild == LastRebuild(past.story.gaps)
      modifies this`mode, this`events
      ensures Answered(outcome, mode) && outcome != Waiting
      ensures Valid() && (mode.Recovering? || mode.Abandoned?) && SameOutage(mode.outage, r)
      ensures mode.Abandoned? <==> blocked || r.attempt >= config.maxAttempts
      ensures mode.Abandoned? ==> events == old(events) + [GaveUp(r.attempt)]
      ensures mode.Recovering? ==>
                && mode.outage.next == now + Max(Backoff(config, r.attempt), config.minInterval)
                && events == old(events) + [RecoveryFailed(r.attempt, mode.outage.next - now)]
    {
      hide watchdog.Valid, FaultFree, DeliveryExact, TapsOk, BudgetOk, GapsOk, DeliveryOk, ConfirmedOk, EventsOk, RenewalsOk, OutageOk;
      NoTapGaps(fault, 0, fault, watchdog.watch.armed, past.story, 0);
      if blocked || r.attempt >= config.maxAttempts {
        OutageOpens(config, Abandoned(r), blocked, past.acts, budget, past.tries, fault, watchdog.watch.armed, past.story);
        Emit(GaveUp(r.attempt));
        mode := Abandoned(r);
        return GivenUp;
      }
      var retryIn := Max(Backoff(config, r.attempt), config.minInterval);
      var later := r.(next := now + retryIn);
      OutageSame(r, later, past.story);
      OutageOpens(config, Recovering(later), blocked, past.acts, budget, past.tries, fault, watchdog.watch.armed, past.story);
      Emit(RecoveryFailed(r.attempt, retryIn));
      mode := Recovering(later);
      return Retrying;
    }

    /** Restart the watch on the new tap and report what was lost. */
    method Resume(now: nat, r: Outage, newFormat: nat)
      requires WatchOk() && past.story.clock == now && fault.None?
      requires TapsOk(Running, tap, blocked, past.acts) && BudgetOk(config, Stopped, budget, past.tries)
      requires GapsOk(Stopped, fault, 0, past.story) && OutageOk(r, past.story)
      modifies this, watchdog
      ensures Valid() && mode.Running?
      ensures past == old(past).(story := old(past.story).(gaps := old(past.story.gaps) + GapsOf(r, now)))
      ensures events == old(events) + [Recovered(r.attempt, newFormat, GapsOf(r, now))]
      ensures budget == old(budget).(rebuilds := old(budget.rebuilds) + 1, lastRebuild := Some(now)) && Forgotten(Look())
    {
      hide watchdog.Valid, FaultFree, DeliveryExact, TapsOk, BudgetOk, GapsOk, DeliveryOk, ConfirmedOk, EventsOk, RenewalsOk, OutageOk, GapsOf;
      ghost var told := Recovered(r.attempt, newFormat, GapsOf(r, now));
      EventTold(events, told, past.mark, past.story.gaps, past.announced, |past.confirmed|);
      GapsExtendStopped(past.story, r, fault);
      GapsEnd(past.story.gaps, r, now);
      var charged := budget.(rebuilds := budget.rebuilds + 1, lastRebuild := Some(now));
      RebuildCharged(config, budget, past.tries, charged);
      debounce, pending := debounce.Clear(), {};
      events := events + [Recovered(r.attempt, newFormat, GapsOf(r, now))];
      past := past.(story := past.story.(gaps := past.story.gaps + GapsOf(r, now)));
      BeginWatch(now, newFormat, charged);
    }
  
    /** A started tap is watched from this moment. */
    method BeginWatch(now: nat, newFormat: nat, charged: Budget)
      requires WatchOk() && past.story.clock == now && TapsOk(Running, tap, blocked, past.acts)
      requires BudgetOk(config, Running, charged, past.tries) && GapsOk(Running, fault, now, past.story)
      requires charged.lastRebuild == LastRebuild(past.story.gaps)
      modifies this`format, this`budget, this`delivery, this`mode, this`seen, watchdog
      ensures Valid() && mode.Running? && budget == charged
    {
      hide watchdog.Valid, FaultFree, DeliveryExact, TapsOk, BudgetOk, GapsOk, DeliveryOk, ConfirmedOk, EventsOk, RenewalsOk;
      NewWatch(config.watchdog, now, IDLE);
      watchdog.Arm(now);
      NothingReported(config.watchdog, now);
      format, budget, delivery, mode, seen := Some(newFormat), charged, IDLE, Running, Seen(false, false);
    }

    /** Give up the present tap for an outage and, when it may, try for a new one. */
    method BeginRecovery(now: nat, silent: Option<Gap>, start: nat, reason: GapReason, native: Native) returns (outcome: Outcome)
      requires Consistent() && past.story.clock == now && tap.Some?
      requires OutageOk(Outage(start, silent, reason, 0, 0), past.story.(outage := Some(start)))
      modifies this, watchdog
      ensures Valid() && past.story.clock == now
      ensures RecoveryBegins(config, old(Look()), Look(), Outage(start, silent, reason, 0, 0), native, now, outcome)
      ensures mode.Quarantined? ==> tap == old(tap)
    {
      hide watchdog.Valid, FaultFree, DeliveryExact, TapsOk, BudgetOk, GapsOk, DeliveryOk, ConfirmedOk, EventsOk, RenewalsOk, OutageOk, GapsOf;
      if budget.attempts >= config.maxAttempts {
        LeaveInPlace();
        return GivenUp;
      }
      DropTap(start, native.stop);
      ghost var mid := Look();
      var r := Outage(start, silent, reason, 0, NextAttemptAt(now));
      OutageSame(Outage(start, silent, reason, 0, 0), r, past.story);
      hide RecoveryEntered, RecoveryBegins;
      outcome := EnterRecovery(now, r, native.how);
      BeganWith(config, old(Look()), mid, Look(), Outage(start, silent, reason, 0, 0), native, blocked, now, outcome);
    }

    /** The budget is spent: the tap stays, quarantined, and its watch goes on. */
    method LeaveInPlace()
      requires Consistent() && tap.Some?
      modifies this`mode, this`seen, this`events
      ensures Valid() && mode.Quarantined? && events == old(events) + [GaveUp(budget.attempts)]
    {
      hide watchdog.Valid, FaultFree, DeliveryExact, TapsOk, BudgetOk, GapsOk, DeliveryOk, ConfirmedOk, EventsOk, RenewalsOk;
      WasLive();
      LiveOk(config, mode, Quarantined, tap, blocked, past.acts, budget, past.tries, fault, watchdog.watch.armed, past.story);
      Emit(GaveUp(budget.attempts));
      mode, seen := Quarantined, seen.(quarantined := true);
    }

    /** The tap is stopped and dropped, and the outage begins. */
    method DropTap(start: nat, result: Option<TapError>)
      requires Consistent() && tap.Some?
      modifies this`active, this`tap, this`blocked, this`format, this`past
      ensures WatchOk() && tap.None? && TapsOk(Stopped, None, blocked, past.acts) && BudgetOk(config, Stopped, budget, past.tries)
      ensures GapsOk(Stopped, fault, 0, past.story) && budget.lastRebuild == LastRebuild(past.story.gaps)
      ensures past == old(past).(acts := past.acts, story := old(past.story).(outage := Some(start)))
      ensures blocked <==> result.Some? && result.value != Cleanup(true)
    {
      hide watchdog.Valid, FaultFree, DeliveryExact, TapsOk, BudgetOk, GapsOk, DeliveryOk, ConfirmedOk, EventsOk, RenewalsOk;
      ghost var armed := watchdog.watch.armed;
      WasLive();
      StopsOk(config, mode, budget, past.tries, fault, armed, past.story);
      NoTapGaps(fault, armed, fault, 0, past.story, start);
      active := false;
      StopTap(result);
      format := None;
      past := past.(story := past.story.(outage := Some(start)));
    }

    /** Without a tap: give up if cleanup is blocked, wait for the spacing, or try. */
    method EnterRecovery(now: nat, r: Outage, how: Opening) returns (outcome: Outcome)
      requires WatchOk() && past.story.clock == now && r.attempt == 0 && r.next == NextAttemptAt(now)
      requires tap.None? && TapsOk(Stopped, None, blocked, past.acts)
      requires BudgetOk(config, Stopped, budget, past.tries) && budget.attempts < config.maxAttempts
      requires GapsOk(Stopped, fault, 0, past.story) && OutageOk(r, past.story) && budget.lastRebuild == LastRebuild(past.story.gaps)
      modifies this, watchdog
      ensures Valid()
      ensures RecoveryEntered(config, old(Look()), Look(), r, how, old(blocked), blocked, now, outcome)
    {
      hide watchdog.Valid, FaultFree, DeliveryExact, TapsOk, BudgetOk, GapsOk, DeliveryOk, ConfirmedOk, EventsOk, RenewalsOk, OutageOk, GapsOf, AttemptEnds;
      ghost var armed := watchdog.watch.armed;
      NoTapGaps(fault, 0, fault, armed, past.story, 0);
      if blocked {
        OutageOpens(config, Abandoned(r), blocked, past.acts, budget, past.tries, fault, armed, past.story);
        Emit(GaveUp(budget.attempts));
        mode := Abandoned(r);
        return GivenUp;
      }
      if now < r.next {
        OutageOpens(config, Recovering(r), blocked, past.acts, budget, past.tries, fault, armed, past.story);
        mode := Recovering(r);
        return Waiting;
      }
      outcome := AttemptRebuild(now, r, how);
    }

    /** Open and start the tap, beginning a session. */
    method Start(now: nat, how: Opening) returns (error: Option<TapError>)
      requires Valid() && past.story.clock <= now
      modifies this, watchdog
      ensures Valid() && past.story.clock == now
      ensures error.None? <==> !old(blocked) && old(mode).Stopped? && how.Starts?
      ensures error.None? ==> mode.Running? && past.tries == [] && past.story.gaps == []
      ensures error.Some? ==> mode == old(mode)
    {
      hide watchdog.Valid, FaultFree, DeliveryExact, TapsOk, BudgetOk, GapsOk, DeliveryOk, ConfirmedOk, EventsOk, RenewalsOk;
      TimePasses(mode, fault, watchdog.watch.armed, past.story, now);
      past := past.(story := past.story.(clock := now));
      if blocked { return Some(Cleanup(false)); }
      if !mode.Stopped? { return Some(AlreadyRunning); }
      WasLive();
      ghost var before := fault;
      var ok := OpenTap(how);
      if !ok {
        NoTapGaps(before, watchdog.watch.armed, fault, watchdog.watch.armed, past.story, 0);
        return Some(how.error);
      }
      BeginSession(now, how.format);
      return None;
    }

    method BeginSession(now: nat, newFormat: nat)
      requires WatchOk() && past.story.clock == now && fault.None? && TapsOk(Running, tap, blocked, past.acts)
      modifies this, watchdog
      ensures Valid() && past.story.clock == now && mode.Running? && past.tries == [] && past.story.gaps == []
    {
      hide watchdog.Valid, FaultFree, DeliveryExact, TapsOk, BudgetOk, GapsOk, DeliveryOk, ConfirmedOk, EventsOk, RenewalsOk;
      EventTold(events, DeliveryConfirmed, past.mark, past.story.gaps, past.announced, |past.confirmed|);
      FreshSession(config, budget.rebuilds, now, |past.confirmed|, past.asked);
      retryRequested := false;
      past := past.(tries := [], story := Story(now, [], None, now), mark := |events|);
      BeginWatch(now, newFormat, Budget(0, 0, None, None, budget.rebuilds));
    }

    /** Start an optional source; a failed start becomes an outage. */
    method StartRecovering(startedAt: nat, now: nat, how: Opening) returns (error: Option<TapError>)
      requires Valid() && past.story.clock <= startedAt <= now
      modifies this, watchdog
      ensures Valid() && past.story.clock == now
      ensures error.None? <==> !old(blocked) && old(mode).Stopped? && how.Starts?
      ensures error.None? ==> mode.Running? && past.tries == [] && past.story.gaps == []
      ensures error.Some? && old(mode).Stopped? ==>
                (mode.Recovering? || mode.Abandoned?) && mode.outage.start == startedAt && past.tries == [Attempt(startedAt)]
      ensures !old(mode).Stopped? ==> mode == old(mode)
    {
      hide watchdog.Valid, FaultFree, DeliveryExact, TapsOk, BudgetOk, GapsOk, DeliveryOk, ConfirmedOk, EventsOk, RenewalsOk;
      if !mode.Stopped? {
        Advance(now);
        return Some(AlreadyRunning);
      }
      error := Start(now, how);
      if error.Some? { AwaitSource(startedAt, now); }
    }

    /** The start that failed is the first attempt of the budget. */
    method AwaitSource(startedAt: nat, now: nat)
      requires Valid() && mode.Stopped? && startedAt <= now && past.story.clock == now
      modifies this
      ensures Valid() && (mode.Recovering? || mode.Abandoned?) && mode.outage.start == startedAt
      ensures past.tries == [Attempt(startedAt)] && past.story.clock == now
    {
      hide watchdog.Valid, FaultFree, DeliveryExact, TapsOk, BudgetOk, GapsOk, DeliveryOk, ConfirmedOk, EventsOk, RenewalsOk;
      WasLive();
      var charged := Budget(1, 0, Some(startedAt), None, budget.rebuilds);
      var retryIn := Max(Backoff(config, 1), config.minInterval);
      var r := Outage(startedAt, None, InitiallyUnavailable, 1, now + retryIn);
      var done := blocked || 1 >= config.maxAttempts;
      var next := if done then Abandoned(r) else Recovering(r);
      ghost var told := Story(startedAt, [], Some(startedAt), now);
      SourceAwaited(config, next, tap, blocked, past.acts, charged, told, fault, watchdog.watch.armed);
      EventTold(events, DeliveryConfirmed, past.mark, past.story.gaps, past.announced, |past.confirmed|);
      FirstRenewals(startedAt, |past.confirmed|, past.asked);
      past := past.(tries := [Attempt(startedAt)], story := told, mark := |events|);
      retryRequested := false;
      Emit(if done then GaveUp(1) else RecoveryFailed(1, retryIn));
      EnterOutage(next, charged);
    }

    /** A session that has no tap yet. */
    method EnterOutage(next: Mode, charged: Budget)
      requires WatchOk() && tap.None? && TapsOk(next, tap, blocked, past.acts) && (next.Recovering? || next.Abandoned?)
      requires charged.lastRebuild == LastRebuild(past.story.gaps)
      requires BudgetOk(config, next, charged, past.tries) && GapsOk(next, fault, watchdog.watch.armed, past.story)
      modifies this`active, this`format, this`delivery, this`budget, this`mode
      ensures Valid() && mode == next
    {
      hide watchdog.Valid, FaultFree, DeliveryExact, TapsOk, BudgetOk, GapsOk, DeliveryOk, ConfirmedOk, EventsOk, RenewalsOk;
      SameDelivery(config.watchdog, watchdog.watch, delivery, IDLE);
      active, format, delivery, budget, mode := false, None, IDLE, charged, next;
    }

    /** The end of a session: the tap goes and no recovery follows. */
    method Stop(result: Option<TapError>)
      requires Valid()
      modifies this
      ensures Valid() && mode.Stopped? && tap.None? && !retryRequested
    {
      hide watchdog.Valid, FaultFree, DeliveryExact, TapsOk, BudgetOk, GapsOk, DeliveryOk, ConfirmedOk, EventsOk, RenewalsOk;
      StopsOk(config, mode, budget, past.tries, fault, watchdog.watch.armed, past.story);
      active := false;
      StopTap(result);
      Settle();
    }

    /** No tap is left: forget what was pending. */
    method Settle()
      requires WatchOk() && tap.None? && TapsOk(Stopped, None, blocked, past.acts)
      requires BudgetOk(config, Stopped, budget, past.tries) && GapsOk(Stopped, fault, watchdog.watch.armed, past.story)
      requires budget.lastRebuild == LastRebuild(past.story.gaps)
      modifies this`mode, this`debounce, this`pending, this`retryRequested, this`signal
      ensures Valid() && mode.Stopped? && !retryRequested
    {
      hide watchdog.Valid, FaultFree, DeliveryExact, TapsOk, BudgetOk, GapsOk, DeliveryOk, ConfirmedOk, EventsOk, RenewalsOk;
      RenewalsAppend(past.tries, Attempt(0), |past.confirmed|, past.asked, retryRequested);
      mode, debounce, pending, retryRequested, signal := Stopped, debounce.Clear(), {}, false, {};
    }

    /** The caller takes over the tap, still running; supervision ends. */
    method TakeRunningTap() returns (handed: Option<nat>)
      requires Valid()
      modifies this
      ensures Valid() && mode.Stopped? && tap.None? && handed == old(tap)
    {
      hide watchdog.Valid, FaultFree, DeliveryExact, TapsOk, BudgetOk, GapsOk, DeliveryOk, ConfirmedOk, EventsOk, RenewalsOk;
      StopsOk(config, mode, budget, past.tries, fault, watchdog.watch.armed, past.story);
      active := false;
      handed := tap;
      if tap.Some? {
        HandOutAct(mode, tap.value, blocked, past.acts);
        past := past.(acts := past.acts + [HandOut(tap.value)]);
      } else {
        NoTapAct(mode, blocked, past.acts);
      }
      tap := None;
      Settle();
    }

    /** Queue a user's retry; only an exhausted, unblocked session takes it. */
    method RequestRetry() returns (taken: bool)
      requires Valid()
      modifies this`retryRequested, this`past
      ensures Valid() && (taken <==> !blocked && (mode.Abandoned? || mode.Quarantined?))
      ensures retryRequested == (old(retryRequested) || taken)
      ensures past == old(past).(asked := old(past.asked) + if taken then 1 else 0)
    {
      hide watchdog.Valid, FaultFree, DeliveryExact, TapsOk, BudgetOk, GapsOk, DeliveryOk, ConfirmedOk, EventsOk, RenewalsOk;
      if blocked || !(mode.Abandoned? || mode.Quarantined?) { return false; }
      RenewalsAppend(past.tries, Attempt(0), |past.confirmed|, past.asked, retryRequested);
      retryRequested := true;
      past := past.(asked := past.asked + 1);
      return true;
    }
  
    /** Frames and buffers must advance on consecutive, close, fault-free polls. */
    method ObserveDelivery(p: Poll, verdict: Verdict, ghost w: Watch) returns (stable: bool)
      requires watchdog.watch == After(w, p) && watchdog.watch.Timed() && watchdog.config == config.watchdog
      requires verdict == Observed(config.watchdog, watchdog.watch)
      requires watchdog.audible <==> Audible(watchdog.watch, |watchdog.watch.polls|)
      requires DeliveryOk(config.watchdog, w, delivery) && DeliveryExact(config.watchdog, w, delivery)
      modifies this`delivery
      ensures DeliveryOk(config.watchdog, watchdog.watch, delivery) && DeliveryExact(config.watchdog, watchdog.watch, delivery)
      ensures stable <==> TenSeconds(config.watchdog, watchdog.watch)
      ensures stable ==> verdict == Healthy
    {
      hide Observed, Audible, Sustained;
      var d := delivery;
      var advancing := d.previous.Some? && d.previous.value.now <= p.now
        && p.now - d.previous.value.now < config.watchdog.noBufferTimeout
        && d.previous.value.activity.frames < p.activity.frames
        && d.previous.value.activity.buffers < p.activity.buffers
        && d.previous.value.activity.silent <= p.activity.silent;
      assert Delivering(config.watchdog, After(w, p)) <==> advancing && verdict == Healthy && watchdog.audible;
      if !advancing || verdict != Healthy || !watchdog.audible {
        NoDelivery(config.watchdog, w, p, d);
        delivery := d.(previous := Some(p), since := None);
        return false;
      }
      var since := if d.since.None? then p.now else d.since.value;
      DeliveryGrows(config.watchdog, w, p, d);
      MoreDelivery(config.watchdog, w, p, d, since);
      hide Delivering, DeliveryExact, TenSeconds;
      delivery := d.(previous := Some(p), since := Some(since));
      stable := Less(p.now, since) >= HEALTHY_NS;
    }

    /** Ten seconds of delivery renew the budget and release quarantine. */
    method EarnBudget()
      requires Valid() && tap.Some? && TenSeconds(config.watchdog, watchdog.watch)
      modifies this`mode, this`budget, this`delivery, this`events, this`past
      ensures Valid() && Renewed(old(Look()), Look(), old(delivery.confirmed))
    {
      hide watchdog.Valid, FaultFree, DeliveryExact, TapsOk, BudgetOk, GapsOk, DeliveryOk, ConfirmedOk, EventsOk, RenewalsOk, TenSeconds;
      WasLive();
      ghost var earned := NewBudget(Delivered(|past.confirmed|));
      BudgetRenewed(config, mode, budget, past.tries, earned);
      RenewalsAppend(past.tries, earned, |past.confirmed|, past.asked, retryRequested);
      ConfirmedGrows(config.watchdog, past.confirmed, watchdog.watch);
      var renewed := budget.(attempts := 0, ineffective := 0);
      LiveOk(config, mode, Running, tap, blocked, past.acts, renewed, past.tries + [earned], fault, watchdog.watch.armed, past.story);
      SameDelivery(config.watchdog, watchdog.watch, delivery, delivery.(confirmed := true));
      var news := !delivery.confirmed && (budget.attempts > 0 || mode.Quarantined?);
      AnnounceOk(events, past, news);
      hide TenSeconds, LastRebuild, Attentive;
      assert Attentive(Running, seen) by { AttentiveOn(mode, seen); }
      past := past.(tries := past.tries + [earned], confirmed := past.confirmed + [watchdog.watch],
                    announced := past.announced + if news then [|past.confirmed|] else []);
      events := events + if news then [DeliveryConfirmed] else [];
      delivery, budget, mode := delivery.(confirmed := true), renewed, Running;
    }

    /** A watchdog fault: note it in quarantine, pause when rebuilding stopped
        helping, otherwise recover with the fault's gap boundaries. */
    method HandleFault(now: nat, f: Fault, native: Native) returns (outcome: Outcome)
      requires Consistent() && (mode.Quarantined? ==> seen.quarantined) && past.story.clock == now && tap.Some?
      requires watchdog.watch.armed <= Since(f) <= now
      modifies this, watchdog
      ensures Valid() && past.story.clock == now
      ensures old(mode).Running? && old(CanRebuild(now)) && native.Works() ==> mode.Running? || mode.Quarantined?
      ensures AnswersFault(config, old(Look()), Look(), f, now, outcome) && (mode.Quarantined? ==> tap == old(tap))
    {
      hide watchdog.Valid, FaultFree, DeliveryExact, TapsOk, BudgetOk, GapsOk, DeliveryOk, ConfirmedOk, EventsOk, RenewalsOk, OutageOk, GapsOf;
      WasLive();
      SameDelivery(config.watchdog, watchdog.watch, delivery, delivery.(confirmed := false));
      delivery := delivery.(confirmed := false);
      if mode.Quarantined? { return GivenUp; }
      CountStall(f);
      if budget.ineffective > config.maxIneffective {
        Emit(RecoveryIneffective(budget.ineffective - 1, f));
        Quarantine(now);
        return GivenUp;
      }
      var r := OutageOf(f, now);
      FaultOutage(mode, fault, watchdog.watch.armed, past.story, f);
      ghost var mid := Look();
      hide RecoveryBegins, AnswersFault;
      outcome := BeginRecovery(now, r.silent, r.start, r.reason, native);
      AfterStall(config, old(Look()), mid, Look(), f, native, now, outcome);
    }

    method CountStall(f: Fault)
      requires Consistent()
      modifies this`events, this`budget
      ensures Consistent() && events == old(events) + [StallDetected(f)]
      ensures budget == old(budget).(ineffective := old(budget.ineffective) + 1)
    {
      hide watchdog.Valid, FaultFree, DeliveryExact, TapsOk, BudgetOk, GapsOk, DeliveryOk, ConfirmedOk, EventsOk, RenewalsOk;
      IneffectiveOk(config, mode, budget, past.tries);
      Emit(StallDetected(f));
      budget := budget.(ineffective := budget.ineffective + 1);
    }

    /** Leave the tap in place, watched anew, and rebuild no more. */
    method Quarantine(now: nat)
      requires Consistent() && past.story.clock == now && tap.Some?
      modifies this`mode, this`delivery, this`seen, watchdog
      ensures Valid() && mode.Quarantined?
    {
      hide watchdog.Valid, FaultFree, DeliveryExact, TapsOk, BudgetOk, GapsOk, DeliveryOk, ConfirmedOk, EventsOk, RenewalsOk;
      WasLive();
      LiveOk(config, mode, Quarantined, tap, blocked, past.acts, budget, past.tries, fault, watchdog.watch.armed, past.story);
      NewWatch(config.watchdog, now, delivery.Restart());
      watchdog.Arm(now);
      NothingReported(config.watchdog, now);
      delivery := delivery.Restart();
      mode, seen := Quarantined, Seen(false, true);
    }

    /** Watch from this moment on. */
    method Rearm(now: nat)
      requires Valid() && past.story.clock == now && mode.Running?
      modifies this`delivery, this`seen, watchdog
      ensures Valid() && watchdog.watch == Watch(now, [])
    {
      hide watchdog.Valid, FaultFree, DeliveryExact, TapsOk, BudgetOk, GapsOk, DeliveryOk, ConfirmedOk, EventsOk, RenewalsOk;
      WasLive();
      LiveOk(config, mode, mode, tap, blocked, past.acts, budget, past.tries, fault, watchdog.watch.armed, past.story);
      NewWatch(config.watchdog, now, delivery.Restart());
      watchdog.Arm(now);
      NothingReported(config.watchdog, now);
      delivery, seen := delivery.Restart(), Seen(false, false);
    }

    /** A rebuild just happened; its own notifications must not cause another. */
    predicate TooSoon(now: nat)
      reads this
    {
      budget.lastRebuild.Some? && Less(now, budget.lastRebuild.value) < config.minInterval
    }

    /** A settled device change rebuilds a running tap exactly when the policy asks
        for it and the last rebuild is long enough ago; otherwise the watch starts
        over. */
    method HandleChange(now: nat, native: Native) returns (outcome: Outcome)
      requires Valid() && past.story.clock == now && tap.Some?
      modifies this, watchdog
      ensures Valid() && past.story.clock == now
      ensures AnswersChange(config, old(Look()), Look(), now, outcome)
      ensures old(debounce).first.None? ==> Forgotten(Look())
    {
      hide watchdog.Valid, FaultFree, DeliveryExact, TapsOk, BudgetOk, GapsOk, DeliveryOk, ConfirmedOk, EventsOk, RenewalsOk, OutageOk, GapsOf;
      WasLive();
      PlainOutage(mode, fault, watchdog.watch.armed, past.story, GapReason.DeviceChanged);
      RebuildTime(config, mode, fault, watchdog.watch.armed, past.story);
      var changes := pending;
      pending := {};
      if mode.Quarantined? {
        Emit(DevicesChanged(changes, false));
        return GivenUp;
      }
      if TooSoon(now) || !config.rebuildOnChange {
        Emit(DevicesChanged(changes, false));
        Rearm(now);
        return Fine;
      }
      Emit(DevicesChanged(changes, true));
      outcome := BeginRecovery(now, None, now, GapReason.DeviceChanged, native);
    }

    /** Watch a live tap: callback faults first, then the watchdog's verdict,
        then device changes. */
    method PollWatching(now: nat, activity: Activity, output: OutputActivity, native: Native) returns (outcome: Outcome)
      requires Valid() && past.story.clock == now && tap.Some?
      modifies this, watchdog
      ensures Valid() && past.story.clock == now
      ensures old(mode).Quarantined? && !mode.Quarantined? ==> |past.confirmed| > |old(past.confirmed)|
      ensures old(events) <= events && Records(config.watchdog, old(past), past, Poll(now, activity, output))
      ensures Responds(config, old(Look()), Look(), Poll(now, activity, output), outcome)
    {
      hide watchdog.Valid, FaultFree, DeliveryExact, ConfirmedOk, DeliveryOk, TapsOk, BudgetOk, GapsOk, EventsOk, RenewalsOk, TenSeconds,
           AnswersCallback, AnswersFault, AnswersChange, AnswersQuiet, Earns, Observed;
      WatchTimed(Poll(now, activity, output));
      if fault.Some? {
        outcome := HandleCallbackFault(now, native);
        CallbackRecords(config, old(Look()), Look(), now, outcome);
        return;
      }
      var verdict := WatchOnce(Poll(now, activity, output));
      ghost var mid := Look();
      EarnsRecords(config, old(Look()), mid);
      if verdict.Faulted? {
        outcome := HandleFault(now, verdict.fault, native);
        SameAnswer(config, old(Look()), mid, Look(), verdict.fault, now, outcome);
        FaultRecords(config, mid, Look(), verdict.fault, now, outcome);
        return;
      }
      outcome := Conclude(now, verdict, native);
      assert Earns(config, old(Look()), mid) && mid.watch == After(old(watchdog.watch), Poll(now, activity, output));
    }

    lemma {:induction false} WatchTimed(p: Poll)
      requires Valid() && past.story.clock == p.now
      ensures After(watchdog.watch, p).Timed()
    {
      hide DeliveryExact, FaultFree, TapsOk, BudgetOk, GapsOk, DeliveryOk, ConfirmedOk, EventsOk, RenewalsOk;
      hide LastFrames, QuietFrom, CorroboratedFrom, Audible;
    }

    /** Without a fault: device changes, then the quiet notice. */
    method Conclude(now: nat, verdict: Verdict, native: Native) returns (outcome: Outcome)
      requires Valid() && past.story.clock == now && tap.Some? && !verdict.Faulted?
      modifies this, watchdog
      ensures Valid() && past.story.clock == now && old(events) <= events && SameRecord(old(past), past)
      ensures old(mode).Quarantined? ==> mode.Quarantined?
      ensures if old(debounce).Fires(config.quiet, config.ceiling, now)
              then AnswersChange(config, old(Look()), Look(), now, outcome) && Forgotten(Look())
              else AnswersQuiet(old(Look()), Look(), verdict, outcome)
    {
      hide watchdog.Valid, FaultFree, DeliveryExact, ConfirmedOk, DeliveryOk, TapsOk, BudgetOk, GapsOk, EventsOk, RenewalsOk;
      if debounce.Fires(config.quiet, config.ceiling, now) {
        debounce := debounce.Clear();
        outcome := HandleChange(now, native);
        return;
      }
      if debounce.first.Some? { return Waiting; }
      outcome := Report(verdict);
    }

    method HandleCallbackFault(now: nat, native: Native) returns (outcome: Outcome)
      requires Valid() && past.story.clock == now && tap.Some? && fault.Some?
      modifies this, watchdog
      ensures Valid() && past.story.clock == now
      ensures AnswersCallback(config, old(Look()), Look(), now, outcome)
    {
      hide watchdog.Valid, FaultFree, DeliveryExact, TapsOk, BudgetOk, GapsOk, DeliveryOk, ConfirmedOk, EventsOk, RenewalsOk, OutageOk, GapsOf;
      WasLive();
      PlainOutage(mode, fault, watchdog.watch.armed, past.story, CallbackFault);
      SameDelivery(config.watchdog, watchdog.watch, delivery, delivery.Restart());
      delivery := delivery.Restart();
      if mode.Quarantined? { return GivenUp; }
      outcome := BeginRecovery(now, None, fault.value, CallbackFault, native);
    }

    /** One watchdog poll and what it earns. */
    method WatchOnce(p: Poll) returns (verdict: Verdict)
      requires Valid() && past.story.clock == p.now && tap.Some? && fault.None?
      modifies this`mode, this`budget, this`delivery, this`events, this`past, this`seen, watchdog
      ensures Earns(config, old(Look()), Look())
      ensures verdict.Faulted? ==> past == old(past) && events == old(events) && mode == old(mode) && budget == old(budget)
      ensures Consistent() && (verdict.Faulted? || Valid()) && (mode.Quarantined? ==> seen.quarantined)
      ensures past.story == old(past.story) && watchdog.watch.armed == old(watchdog.watch.armed)
      ensures watchdog.watch == After(old(watchdog.watch), p) && verdict == Observed(config.watchdog, watchdog.watch)
      ensures verdict.Faulted? ==> watchdog.watch.armed <= Since(verdict.fault) <= p.now
      ensures mode == old(mode) || (mode.Running? && past.confirmed == old(past.confirmed) + [watchdog.watch])
      ensures past.confirmed == old(past.confirmed) || past.confirmed == old(past.confirmed) + [watchdog.watch]
      ensures old(events) <= events && Records(config.watchdog, old(past), past, p)
    {
      hide watchdog.Valid, FaultFree, DeliveryExact, Sustained, ConfirmedOk, TapsOk, BudgetOk, GapsOk, DeliveryOk, TenSeconds, Observed, EventsOk, RenewalsOk;
      ghost var w := watchdog.watch;
      verdict := watchdog.PollOnce(p.now, p.activity, p.output);
      if verdict.Faulted? {
        FaultStart(config.watchdog, watchdog.watch);
        seen := seen.(faulted := true);
      } else if !seen.faulted {
        FaultFreeGrows(config.watchdog, w, p);
      }
      var stable := ObserveDelivery(p, verdict, w);
      if stable { EarnBudget(); }
    }

    method Report(verdict: Verdict) returns (outcome: Outcome)
      requires Valid() && !verdict.Faulted?
      modifies this`delivery, this`events
      ensures Valid()
      ensures outcome == if verdict.NoAudio? then Quiet(verdict.lasted) else Fine
      ensures delivery.notified == verdict.NoAudio?
      ensures NoAudioTold(old(events), events, verdict, old(delivery.notified))
    {
      hide watchdog.Valid, FaultFree, DeliveryExact, TapsOk, BudgetOk, GapsOk, DeliveryOk, ConfirmedOk, EventsOk, RenewalsOk;
      SameDelivery(config.watchdog, watchdog.watch, delivery, delivery.(confirmed := false, notified := true));
      SameDelivery(config.watchdog, watchdog.watch, delivery, delivery.(notified := false));
      if verdict.NoAudio? {
        if !delivery.notified { Emit(NoAudioDetected(verdict.lasted)); }
        delivery := delivery.(confirmed := false, notified := true);
        return Quiet(verdict.lasted);
      }
      delivery := delivery.(notified := false);
      return Fine;
    }

    /** One poll: the user's retry, device changes, then the tap or the outage. */
    method PollSession(now: nat, activity: Activity, output: OutputActivity, native: Native) returns (outcome: Outcome)
      requires Valid() && past.story.clock <= now
      modifies this, watchdog
      ensures Valid() && past.story.clock == now
      ensures old(mode).Stopped? ==> mode.Stopped? && outcome == NotRunning
      ensures old(blocked) ==> past.acts == old(past.acts)
      ensures old(mode).Quarantined? && !mode.Quarantined? ==> old(retryRequested) || |past.confirmed| > |old(past.confirmed)|
      ensures old(mode).Recovering? || old(mode).Abandoned? ==>
                Persists(old(mode).outage, mode, old(past.story.gaps), past.story.gaps, now)
      ensures old(events) <= events && Records(config.watchdog, old(past), past, Poll(now, activity, output))
      ensures Confirmations(events) == Confirmations(old(events)) + |past.announced| - |old(past.announced)|
      ensures Live(old(mode)) && !old(retryRequested) ==>
                Responds(config, Noted(config, old(Look()), old(signal), now), Look(), Poll(now, activity, output), outcome)
      ensures old(mode).Quarantined? && old(retryRequested) ==> Retries(old(Look()), Look(), false, now, outcome)
      ensures old(mode).Abandoned? && (old(blocked) || !old(retryRequested)) ==> mode == old(mode) && outcome == GivenUp
      ensures old(mode).Recovering? && !old(retryRequested) ==> past.tries == old(past.tries) + Attempted(now, old(mode).outage.next)
      ensures old(mode).Abandoned? && !old(blocked) && old(retryRequested) ==>
                past.tries == old(past.tries) + [NewBudget(Asked)] + Attempted(now, RetryDue(config, old(budget), now))
    {
      hide watchdog.Valid, FaultFree, DeliveryExact, ConfirmedOk, DeliveryOk, BudgetOk, GapsOk, TapsOk, GapsOf, EventsOk, RenewalsOk, TenSeconds,
           Confirmations, Responds;
      EventsTell();
      WasLive();
      Advance(now);
      if mode.Stopped? { return NotRunning; }
      if blocked { return GivenUp; }
      if retryRequested {
        var started, result := TakeRetry(now, native);
        EventsTell();
        if started { return result; }
        if old(mode).Abandoned? { SameGaps(mode.outage, old(mode).outage, now); }
      }
      outcome := PollOn(now, activity, output, native);
      EventsTell();
    }

    /** Device changes, then the tap or the outage. */
    method PollOn(now: nat, activity: Activity, output: OutputActivity, native: Native) returns (outcome: Outcome)
      requires Valid() && past.story.clock == now && !mode.Stopped? && !blocked
      modifies this, watchdog
      ensures Valid() && past.story.clock == now
      ensures old(events) <= events && Records(config.watchdog, old(past), past, Poll(now, activity, output))
      ensures old(mode).Quarantined? && !mode.Quarantined? ==> |past.confirmed| > |old(past.confirmed)|
      ensures Live(old(mode)) ==>
                Responds(config, Noted(config, old(Look()), old(signal), now), Look(), Poll(now, activity, output), outcome)
      ensures old(mode).Recovering? || old(mode).Abandoned? ==>
                && SameRecord(old(past), past) && Persists(old(mode).outage, mode, old(past.story.gaps), past.story.gaps, now)
      ensures old(mode).Abandoned? ==> mode == old(mode) && past == old(past) && outcome == GivenUp
      ensures old(mode).Recovering? ==> past.tries == old(past.tries) + Attempted(now, old(mode).outage.next)
    {
      hide watchdog.Valid, FaultFree, DeliveryExact, ConfirmedOk, DeliveryOk, BudgetOk, GapsOk, TapsOk, GapsOf, EventsOk, RenewalsOk, TenSeconds, Responds;
      NoteChanges(now);
      WasLive();
      assert Look() == Noted(config, old(Look()), old(signal), now);
      if mode.Running? || mode.Quarantined? {
        outcome := PollWatching(now, activity, output, native);
      } else {
        outcome := PollOutage(now, native);
      }
    }

    /** Time passes. */
    method Advance(now: nat)
      requires Valid() && past.story.clock <= now
      modifies this`past
      ensures Valid() && past == old(past).(story := old(past.story).(clock := now))
    {
      hide watchdog.Valid, FaultFree, DeliveryExact, TapsOk, BudgetOk, GapsOk, DeliveryOk, ConfirmedOk, EventsOk, RenewalsOk;
      TimePasses(mode, fault, watchdog.watch.armed, past.story, now);
      past := past.(story := past.story.(clock := now));
    }

    /** Pending changes accumulate; only the listed kinds arm the debounce. */
    method NoteChanges(now: nat)
      requires Valid()
      modifies this`signal, this`pending, this`debounce
      ensures Valid() && signal == {} && pending == old(pending) + old(signal)
      ensures debounce == if old(signal) * config.triggers == {} then old(debounce) else old(debounce).Signal(now)
    {
      hide watchdog.Valid, FaultFree, DeliveryExact, TapsOk, BudgetOk, GapsOk, DeliveryOk, ConfirmedOk, EventsOk, RenewalsOk;
      var changes := signal;
      signal, pending := {}, pending + changes;
      if changes * config.triggers != {} { debounce := debounce.Signal(now); }
    }

    /** No tap: attempt when due; an abandoned outage only waits for the user. */
    method PollOutage(now: nat, native: Native) returns (outcome: Outcome)
      requires Valid() && past.story.clock == now && !blocked && (mode.Recovering? || mode.Abandoned?)
      modifies this, watchdog
      ensures Valid() && past.story.clock == now
      ensures old(mode).Abandoned? ==> mode == old(mode) && past == old(past) && events == old(events) && outcome == GivenUp
      ensures SameRecord(old(past), past) && old(events) <= events
      ensures old(mode).Recovering? ==>
                if now < old(mode).outage.next
                then mode == old(mode) && past == old(past) && events == old(events) && outcome == Waiting
                else AttemptEnds(config, old(Look()), Look(), old(mode).outage, native.how, blocked, now, outcome)
      ensures Persists(old(mode).outage, mode, old(past.story.gaps), past.story.gaps, now)
    {
      hide watchdog.Valid, FaultFree, DeliveryExact, TapsOk, BudgetOk, GapsOk, DeliveryOk, ConfirmedOk, EventsOk, RenewalsOk, OutageOk, GapsOf;
      if mode.Abandoned? {
        debounce, pending := debounce.Clear(), {};
        return GivenUp;
      }
      if now < mode.outage.next { return Waiting; }
      OutageEnds(config, mode, tap, blocked, past.acts, budget, past.tries, fault, watchdog.watch.armed, past.story);
      outcome := AttemptRebuild(now, mode.outage, native.how);
    }

    /** A user's retry renews the budget but not the spacing, and keeps the
        outage it resumes. */
    method TakeRetry(now: nat, native: Native) returns (started: bool, outcome: Outcome)
      requires Valid() && past.story.clock == now && !mode.Stopped? && !blocked && retryRequested
      modifies this, watchdog
      ensures Valid() && past.story.clock == now
      ensures SameRecord(old(past), past) && old(events) <= events
      ensures !started ==> !mode.Stopped? && !blocked
      ensures old(mode).Abandoned? ==> mode.Recovering? && SameOutage(mode.outage, old(mode).outage) && !started
      ensures old(mode).Recovering? ==> mode == old(mode) && !started
      ensures old(mode).Abandoned? || old(mode).Recovering? ==> past.story == old(past.story)
      ensures old(mode).Quarantined? ==> started && Retries(old(Look()), Look(), false, now, outcome)
      ensures !started ==> past == old(past).(tries := old(past.tries) + [NewBudget(Asked)]) && budget.lastAttempt == old(budget.lastAttempt)
      ensures old(mode).Abandoned? ==>
                mode.outage.next == if old(budget.lastAttempt).None? then now else Max(now, old(budget.lastAttempt).value + config.minInterval)
    {
      hide watchdog.Valid, FaultFree, DeliveryExact, Sustained, ConfirmedOk, DeliveryOk, TapsOk, BudgetOk, GapsOk, EventsOk, RenewalsOk;
      Renew();
      started, outcome := false, Waiting;
      if mode.Abandoned? {
        Reschedule(now);
      } else if mode.Quarantined? {
        started := true;
        outcome := RebuildQuarantined(now, native);
      }
    }

    /** Back to recovering, keeping the outage and the spacing. */
    method Reschedule(now: nat)
      requires Valid() && mode.Abandoned? && !blocked && budget.attempts == 0
      modifies this`mode
      ensures Valid() && mode.Recovering? && SameOutage(mode.outage, old(mode).outage)
      ensures mode.outage.next == if budget.lastAttempt.None? then now else Max(now, budget.lastAttempt.value + config.minInterval)
    {
      hide watchdog.Valid, FaultFree, DeliveryExact, TapsOk, BudgetOk, GapsOk, DeliveryOk, ConfirmedOk, EventsOk, RenewalsOk, OutageOk;
      OutageEnds(config, mode, tap, blocked, past.acts, budget, past.tries, fault, watchdog.watch.armed, past.story);
      var r := mode.outage.(next := NextAttemptAt(now));
      OutageSame(mode.outage, r, past.story);
      OutageOpens(config, Recovering(r), blocked, past.acts, budget, past.tries, fault, watchdog.watch.armed, past.story);
      mode := Recovering(r);
    }

    /** Rebuild the tap that was left running, from its fault if it had one. */
    method RebuildQuarantined(now: nat, native: Native) returns (outcome: Outcome)
      requires Valid() && past.story.clock == now && mode.Quarantined?
      modifies this, watchdog
      ensures Valid() && past.story.clock == now
      ensures SameRecord(old(past), past) && old(events) <= events
      ensures Retries(old(Look()), Look(), old(budget.attempts) >= config.maxAttempts, now, outcome)
    {
      hide watchdog.Valid, FaultFree, DeliveryExact, TapsOk, BudgetOk, GapsOk, DeliveryOk, ConfirmedOk, EventsOk, RenewalsOk, OutageOk, GapsOf;
      PlainOutage(mode, fault, watchdog.watch.armed, past.story, if fault.None? then RebuildWindow else CallbackFault);
      WasLive();
      if fault.None? {
        outcome := BeginRecovery(now, None, now, RebuildWindow, native);
      } else {
        outcome := BeginRecovery(now, None, fault.value, CallbackFault, native);
      }
    }

    /** The waiting request is used up for a new budget. */
    method Renew()
      requires Valid() && retryRequested
      modifies this`budget, this`debounce, this`pending, this`signal, this`past, this`retryRequested
      ensures Valid() && past == old(past).(tries := old(past.tries) + [NewBudget(Asked)])
      ensures budget == old(budget).(attempts := 0, ineffective := 0)
      ensures !retryRequested
    {
      hide watchdog.Valid, FaultFree, DeliveryExact, TapsOk, BudgetOk, GapsOk, DeliveryOk, ConfirmedOk, EventsOk, RenewalsOk;
      BudgetRenewed(config, mode, budget, past.tries, NewBudget(Asked));
      RenewalsAppend(past.tries, NewBudget(Asked), |past.confirmed|, past.asked, true);
      retryRequested := false;
      budget := budget.(attempts := 0, ineffective := 0);
      debounce, pending, signal := debounce.Clear(), {}, {};
      past := past.(tries := past.tries + [NewBudget(Asked)]);
    }
  }

  /** The user is told once per quiet stretch. */
  predicate NoAudioTold(before: seq<Event>, after: seq<Event>, v: Verdict, already: bool)
  {
    after == before + if v.NoAudio? && !already then [NoAudioDetected(v.lasted)] else []
  }
}
