/** The retention planner: what a sweep deletes, in which order, and what it can
    never delete. */
module Retention {
  import opened Outcomes

  const MS_PER_DAY: nat := 86_400_000

  datatype Policy = Default | UntilTranscribed | Days(days: nat) | Forever

  datatype TranscriptState = Recording | Transcribing | Ready | Failed

  /** One meeting's audio. Ids are ordered, as UUIDv7 strings are. */
  datatype Meeting = Meeting(
    id: nat, started: nat, state: TranscriptState, readyAt: Option<nat>, policy: Policy, bytes: nat, paths: seq<string>)

  datatype Settings = Settings(defaultDays: nat, budget: nat)

  datatype Reason = PolicyAge(days: nat) | Transcribed | OverBudget

  datatype Eviction = Eviction(id: nat, bytes: nat, reason: Reason, paths: seq<string>)

  datatype Warning =
    | OnlyForeverRemains(overBy: nat, foreverBytes: nat)
    | OnlyUntranscribedRemains(overBy: nat, untranscribedBytes: nat)

  datatype Plan = Plan(evictions: seq<Eviction>, warnings: seq<Warning>, before: nat, after: nat, budget: nat)

  function ExpiresAt(m: Meeting, defaultDays: nat): Option<nat>
  {
    if m.readyAt.None? || m.state != Ready then None
    else match m.policy
      case Forever => None
      case Default => Some(m.readyAt.value + defaultDays * MS_PER_DAY)
      case UntilTranscribed => Some(m.readyAt.value)
      case Days(days) => Some(m.readyAt.value + days * MS_PER_DAY)
  }

  predicate IsTranscribed(m: Meeting) { m.state == Ready && m.readyAt.Some? }

  predicate IsEvictable(m: Meeting) { m.policy != Forever && IsTranscribed(m) && m.bytes > 0 }

  /** The policy pass takes this meeting. */
  predicate Due(m: Meeting, now: nat, s: Settings)
  {
    && !(m.bytes == 0 && m.paths == [])
    && ExpiresAt(m, s.defaultDays).Some? && ExpiresAt(m, s.defaultDays).value <= now
  }

  /** The budget pass may take this meeting. */
  predicate Candidate(m: Meeting, now: nat, s: Settings) { !Due(m, now, s) && IsEvictable(m) }

  predicate IsUntranscribed(m: Meeting) { m.policy != Forever && !IsTranscribed(m) }

  function Bytes(ms: seq<Meeting>): nat
  {
    if ms == [] then 0 else ms[0].bytes + Bytes(ms[1..])
  }

  function OnlyIf(keep: bool, m: Meeting): seq<Meeting> { if keep then [m] else [] }

  function DueOf(ms: seq<Meeting>, now: nat, s: Settings): (r: seq<Meeting>)
    ensures forall m :: m in r <==> m in ms && Due(m, now, s)
  {
    if ms == [] then [] else OnlyIf(Due(ms[0], now, s), ms[0]) + DueOf(ms[1..], now, s)
  }

  function CandidatesOf(ms: seq<Meeting>, now: nat, s: Settings): (r: seq<Meeting>)
    ensures forall m :: m in r <==> m in ms && Candidate(m, now, s)
  {
    if ms == [] then [] else OnlyIf(Candidate(ms[0], now, s), ms[0]) + CandidatesOf(ms[1..], now, s)
  }

  function ForeverBytes(ms: seq<Meeting>): nat
  {
    if ms == [] then 0 else (if ms[0].policy == Forever then ms[0].bytes else 0) + ForeverBytes(ms[1..])
  }

  function UntranscribedBytes(ms: seq<Meeting>): nat
  {
    if ms == [] then 0 else (if IsUntranscribed(ms[0]) then ms[0].bytes else 0) + UntranscribedBytes(ms[1..])
  }

  predicate UniqueIds(ms: seq<Meeting>)
  {
    forall i, j :: 0 <= i < j < |ms| ==> ms[i].id != ms[j].id
  }

  lemma {:induction false} BytesOnlyIf(keep: bool, m: Meeting, rest: seq<Meeting>)
    ensures Bytes(OnlyIf(keep, m) + rest) == (if keep then m.bytes else 0) + Bytes(rest)
  {
    if keep { assert ([m] + rest)[1..] == rest; } else { assert [] + rest == rest; }
  }

  // Exactly one of the four, unless there is nothing to delete.
  lemma {:induction false} OneOfFour(m: Meeting, now: nat, s: Settings)
    ensures m.bytes == (if Due(m, now, s) then m.bytes else 0) + (if Candidate(m, now, s) then m.bytes else 0)
                       + (if m.policy == Forever then m.bytes else 0) + (if IsUntranscribed(m) then m.bytes else 0)
  {
  }

  /** Every byte is due, evictable, kept forever or not yet transcribed. */
  lemma {:induction false} BytesPartition(ms: seq<Meeting>, now: nat, s: Settings)
    ensures Bytes(ms) == Bytes(DueOf(ms, now, s)) + Bytes(CandidatesOf(ms, now, s)) + ForeverBytes(ms) + UntranscribedBytes(ms)
  {
    hide Due, Candidate, IsUntranscribed, OnlyIf;
    if ms != [] {
      BytesPartition(ms[1..], now, s);
      var m := ms[0];
      OneOfFour(m, now, s);
      BytesOnlyIf(Due(m, now, s), m, DueOf(ms[1..], now, s));
      BytesOnlyIf(Candidate(m, now, s), m, CandidatesOf(ms[1..], now, s));
    }
  }

  // ---------------------------------------------------------------- oldest first

  predicate Older(a: Meeting, b: Meeting)
  {
    a.started < b.started || (a.started == b.started && a.id <= b.id)
  }

  ghost predicate OldestFirst(ms: seq<Meeting>)
  {
    forall i, j :: 0 <= i < j < |ms| ==> Older(ms[i], ms[j])
  }

  function InsertByAge(ms: seq<Meeting>, m: Meeting): (r: seq<Meeting>)
    ensures multiset(r) == multiset(ms) + multiset{m} && Bytes(r) == Bytes(ms) + m.bytes
    ensures forall x :: x in r <==> x in ms || x == m
  {
    if ms == [] then [m]
    else if Older(m, ms[0]) then
      assert ([m] + ms)[1..] == ms;
      [m] + ms
    else
      var rest := InsertByAge(ms[1..], m);
      assert ms == [ms[0]] + ms[1..] && ([ms[0]] + rest)[1..] == rest;
      [ms[0]] + rest
  }

  lemma {:induction false} InsertOrdered(ms: seq<Meeting>, m: Meeting)
    requires OldestFirst(ms)
    ensures OldestFirst(InsertByAge(ms, m))
  {
    if ms != [] && !Older(m, ms[0]) {
      InsertOrdered(ms[1..], m);
      var rest := InsertByAge(ms[1..], m);
      forall x | x in rest ensures Older(ms[0], x) {
        if x != m {
          var i :| 0 <= i < |ms[1..]| && ms[1..][i] == x;
          assert Older(ms[0], ms[i + 1]);
        }
      }
      ConsOrdered(ms[0], rest);
    } else if ms != [] {
      forall x | x in ms ensures Older(m, x) {
        var i :| 0 <= i < |ms| && ms[i] == x;
      }
      ConsOrdered(m, ms);
    }
  }

  lemma {:induction false} ConsOrdered(m: Meeting, rest: seq<Meeting>)
    requires OldestFirst(rest) && forall x :: x in rest ==> Older(m, x)
    ensures OldestFirst([m] + rest)
  {
    var r := [m] + rest;
    forall i, j | 0 <= i < j < |r| ensures Older(r[i], r[j]) {
      assert r[j] == rest[j - 1] && rest[j - 1] in rest;
    }
  }

  function ByAge(ms: seq<Meeting>): (r: seq<Meeting>)
    ensures multiset(r) == multiset(ms) && Bytes(r) == Bytes(ms) && |r| == |ms|
    ensures forall x :: x in r <==> x in ms
  {
    if ms == [] then []
    else
      assert ms == [ms[0]] + ms[1..];
      var r := InsertByAge(ByAge(ms[1..]), ms[0]);
      assert |multiset(r)| == |multiset(ms)|;
      r
  }

  lemma {:induction false} ByAgeOrdered(ms: seq<Meeting>)
    ensures OldestFirst(ByAge(ms))
  {
    if ms != [] {
      ByAgeOrdered(ms[1..]);
      InsertOrdered(ByAge(ms[1..]), ms[0]);
    }
  }

  // ---------------------------------------------------------------- the plan

  function EvictForAge(m: Meeting, s: Settings): Eviction
  {
    var reason := match m.policy
      case UntilTranscribed => Transcribed
      case Days(days) => PolicyAge(days)
      case _ => PolicyAge(s.defaultDays);
    Eviction(m.id, m.bytes, reason, m.paths)
  }

  function EvictForBudget(m: Meeting): Eviction { Eviction(m.id, m.bytes, OverBudget, m.paths) }

  function AgeEvictions(ms: seq<Meeting>, s: Settings): (r: seq<Eviction>)
    ensures |r| == |ms| && forall i :: 0 <= i < |r| ==> r[i] == EvictForAge(ms[i], s)
  {
    seq(|ms|, i requires 0 <= i < |ms| => EvictForAge(ms[i], s))
  }

  function BudgetEvictions(ms: seq<Meeting>): (r: seq<Eviction>)
    ensures |r| == |ms| && forall i :: 0 <= i < |r| ==> r[i] == EvictForBudget(ms[i])
  {
    seq(|ms|, i requires 0 <= i < |ms| => EvictForBudget(ms[i]))
  }

  /** The plan takes everything due, then the first k candidates by age, where k
      is the least that brings the rest within the budget, or all of them. */
  ghost predicate Picks(now: nat, ms: seq<Meeting>, s: Settings, evictions: seq<Eviction>, after: nat, k: nat)
  {
    var due, queue := DueOf(ms, now, s), ByAge(CandidatesOf(ms, now, s));
    && k <= |queue|
    && evictions == AgeEvictions(due, s) + BudgetEvictions(queue[..k])
    && Bytes(ms) == after + Bytes(due) + Bytes(queue[..k])
    && (k > 0 ==> after + queue[k - 1].bytes > s.budget)
    && (k < |queue| ==> after <= s.budget)
  }

  ghost predicate IsPlan(now: nat, ms: seq<Meeting>, s: Settings, plan: Plan, k: nat)
  {
    && plan.budget == s.budget && plan.before == Bytes(ms)
    && Picks(now, ms, s, plan.evictions, plan.after, k)
    && plan.warnings == if plan.after > s.budget then Warnings(ms, plan.after - s.budget) else []
  }

  function Warnings(ms: seq<Meeting>, overBy: nat): seq<Warning>
  {
    (if ForeverBytes(ms) > 0 then [OnlyForeverRemains(overBy, ForeverBytes(ms))] else [])
    + (if UntranscribedBytes(ms) > 0 then [OnlyUntranscribedRemains(overBy, UntranscribedBytes(ms))] else [])
  }

  // ---------------------------------------------------------------- what every plan promises

  lemma {:induction false} BytesConcat(x: seq<Meeting>, y: seq<Meeting>)
    ensures Bytes(x + y) == Bytes(x) + Bytes(y)
  {
    if x == [] {
      assert x + y == y;
    } else {
      BytesConcat(x[1..], y);
      assert (x + y)[1..] == x[1..] + y;
    }
  }

  /** Who is evicted: someone due, or one of the first k candidates. */
  ghost predicate Evicts(now: nat, ms: seq<Meeting>, s: Settings, k: nat, m: Meeting)
    requires k <= |CandidatesOf(ms, now, s)|
  {
    m in DueOf(ms, now, s) || m in ByAge(CandidatesOf(ms, now, s))[..k]
  }

  lemma {:induction false} PrefixMember(queue: seq<Meeting>, k: nat, m: Meeting)
    requires k <= |queue| && m in queue[..k]
    ensures m in queue
  {
  }

  /** Audio kept forever, or not yet transcribed, is never evicted; everything
      evicted is a meeting of the library. */
  lemma {:induction false} ProtectedAudioStays(now: nat, ms: seq<Meeting>, s: Settings, plan: Plan, k: nat)
    requires IsPlan(now, ms, s, plan, k)
    ensures forall e :: e in plan.evictions ==>
              exists m :: m in ms && e.id == m.id && e.bytes == m.bytes && e.paths == m.paths
                          && m.policy != Forever && m.state == Ready && m.readyAt.Some?
  {
    hide DueOf, CandidatesOf, ByAge, Bytes, Warnings, Due;
    var due, queue := DueOf(ms, now, s), ByAge(CandidatesOf(ms, now, s));
    forall e | e in plan.evictions
      ensures exists m :: m in ms && e.id == m.id && e.bytes == m.bytes && e.paths == m.paths && m.policy != Forever
                        && m.state == Ready && m.readyAt.Some?
    {
      var i :| 0 <= i < |plan.evictions| && plan.evictions[i] == e;
      if i < |due| {
        DueIsUnprotected(due[i], now, s);
        assert due[i] in ms;
      } else {
        assert queue[i - |due|] in queue;
      }
    }
  }

  lemma {:induction false} DueIsUnprotected(m: Meeting, now: nat, s: Settings)
    ensures Due(m, now, s) ==> m.policy != Forever && IsTranscribed(m)
  {
  }

  lemma {:induction false} BytesPrefix(queue: seq<Meeting>, j: nat, k: nat)
    requires j < k <= |queue|
    ensures Bytes(queue[..j]) + queue[k - 1].bytes <= Bytes(queue[..k])
    decreases k
  {
    BytesSnoc(queue, k - 1);
    if j < k - 1 { BytesPrefix(queue, j, k - 1); }
  }

  lemma {:induction false} BytesSnoc(queue: seq<Meeting>, i: nat)
    requires i < |queue|
    ensures Bytes(queue[..i + 1]) == Bytes(queue[..i]) + queue[i].bytes
  {
    assert queue[..i + 1] == queue[..i] + [queue[i]];
    BytesConcat(queue[..i], [queue[i]]);
    assert [queue[i]][1..] == [];
  }

  /** The meeting's own number of days, counted from the moment its transcript was
      ready: none for one kept until transcribed, the library's for the default. */
  ghost predicate WindowOver(m: Meeting, now: nat, s: Settings, days: nat)
  {
    && m.state == Ready && m.readyAt.Some?
    && (m.policy == Days(days) || (m.policy == Default && days == s.defaultDays) || (m.policy == UntilTranscribed && days == 0))
    && m.readyAt.value + days * (24 * 60 * 60 * 1000) <= now
  }

  ghost predicate HasAudio(m: Meeting) { m.bytes > 0 || m.paths != [] }

  lemma {:induction false} DueIff(m: Meeting, now: nat, s: Settings)
    ensures Due(m, now, s) <==> HasAudio(m) && exists days: nat :: WindowOver(m, now, s, days)
  {
    if Due(m, now, s) {
      assert WindowOver(m, now, s, match m.policy case Days(days) => days case Default => s.defaultDays case _ => 0);
    }
  }

  /** Why a meeting may go: its own window is over, its transcript is there, or,
      inside its window, the library is over budget. */
  ghost predicate Justified(e: Eviction, m: Meeting, now: nat, s: Settings)
  {
    && e.id == m.id && e.bytes == m.bytes && e.paths == m.paths
    && match e.reason
       case PolicyAge(days) => m.policy != UntilTranscribed && WindowOver(m, now, s, days)
       case Transcribed => m.policy == UntilTranscribed && WindowOver(m, now, s, 0)
       case OverBudget => m.state == Ready && m.readyAt.Some? && m.policy != Forever && m.bytes > 0 && forall days: nat :: !WindowOver(m, now, s, days)
  }

  ghost predicate Evicted(evictions: seq<Eviction>, m: Meeting, now: nat, s: Settings)
  {
    exists i :: 0 <= i < |evictions| && evictions[i].reason != OverBudget && Justified(evictions[i], m, now, s)
  }

  ghost predicate JustifiedIn(e: Eviction, ms: seq<Meeting>, now: nat, s: Settings)
  {
    exists m :: m in ms && Justified(e, m, now, s)
  }

  /** Every eviction of a plan is justified, and every meeting with audio whose
      window is over is evicted for that. */
  lemma {:induction false} WindowsAreKept(now: nat, ms: seq<Meeting>, s: Settings, plan: Plan, k: nat)
    requires IsPlan(now, ms, s, plan, k)
    ensures forall i :: 0 <= i < |plan.evictions| ==> JustifiedIn(plan.evictions[i], ms, now, s)
    ensures forall m, days: nat :: m in ms && HasAudio(m) && WindowOver(m, now, s, days) ==> Evicted(plan.evictions, m, now, s)
  {
    hide DueOf, CandidatesOf, ByAge, Bytes, Warnings, Due, Candidate;
    var due, queue := DueOf(ms, now, s), ByAge(CandidatesOf(ms, now, s));
    forall i | 0 <= i < |plan.evictions| ensures JustifiedIn(plan.evictions[i], ms, now, s) {
      if i < |due| {
        assert due[i] in due;
        AgeJustified(due[i], now, s);
        assert Justified(plan.evictions[i], due[i], now, s);
      } else {
        var m := queue[i - |due|];
        assert m in queue;
        BudgetJustified(m, now, s);
        assert Justified(plan.evictions[i], m, now, s);
      }
    }
    forall m, days: nat | m in ms && HasAudio(m) && WindowOver(m, now, s, days) ensures Evicted(plan.evictions, m, now, s) {
      DueIff(m, now, s);
      assert m in due;
      var i :| 0 <= i < |due| && due[i] == m;
      AgeJustified(m, now, s);
      assert plan.evictions[i] == EvictForAge(m, s);
    }
  }

  lemma {:induction false} AgeJustified(m: Meeting, now: nat, s: Settings)
    requires Due(m, now, s)
    ensures Justified(EvictForAge(m, s), m, now, s) && EvictForAge(m, s).reason != OverBudget
  {
  }

  lemma {:induction false} BudgetJustified(m: Meeting, now: nat, s: Settings)
    requires Candidate(m, now, s)
    ensures Justified(EvictForBudget(m), m, now, s)
  {
    DueIff(m, now, s);
    hide Due, WindowOver;
  }

  /** The budget pass takes the oldest candidates and stops as soon as it can. */
  lemma {:induction false} BudgetPrefixIsMinimal(now: nat, ms: seq<Meeting>, s: Settings, plan: Plan, k: nat, j: nat)
    requires IsPlan(now, ms, s, plan, k) && j < k
    ensures var queue := ByAge(CandidatesOf(ms, now, s));
            && (forall m :: m in queue[k..] ==>
                  queue[j].started < m.started || (queue[j].started == m.started && queue[j].id <= m.id))
            && Bytes(ms) - Bytes(DueOf(ms, now, s)) - Bytes(queue[..j]) > s.budget
  {
    hide DueOf, CandidatesOf, ByAge, Bytes, AgeEvictions, BudgetEvictions, Warnings;
    var queue := ByAge(CandidatesOf(ms, now, s));
    ByAgeOrdered(CandidatesOf(ms, now, s));
    BytesPrefix(queue, j, k);
    forall m | m in queue[k..] ensures Older(queue[j], m) {
      var i :| 0 <= i < |queue[k..]| && queue[k..][i] == m;
      assert m == queue[k + i];
    }
  }

  /** A library still over budget holds only protected audio, and says so. */
  lemma {:induction false} OverBudgetIsProtected(now: nat, ms: seq<Meeting>, s: Settings, plan: Plan, k: nat)
    requires IsPlan(now, ms, s, plan, k) && plan.after > s.budget
    ensures plan.after == ForeverBytes(ms) + UntranscribedBytes(ms) && plan.warnings != []
    ensures forall w :: w in plan.warnings <==>
              || (w == OnlyForeverRemains(plan.after - s.budget, ForeverBytes(ms)) && ForeverBytes(ms) > 0)
              || (w == OnlyUntranscribedRemains(plan.after - s.budget, UntranscribedBytes(ms)) && UntranscribedBytes(ms) > 0)
  {
    hide DueOf, CandidatesOf, ByAge, Bytes, AgeEvictions, BudgetEvictions, ForeverBytes, UntranscribedBytes;
    var queue := ByAge(CandidatesOf(ms, now, s));
    BytesPartition(ms, now, s);
    assert k == |queue| && queue[..k] == queue;
  }

  // ---------------------------------------------------------------- planning again

  /** What is left once a plan is carried out. */
  function Survivors(ms: seq<Meeting>, gone: set<Meeting>): (r: seq<Meeting>)
    ensures forall m :: m in r <==> m in ms && m !in gone
  {
    if ms == [] then [] else (if ms[0] in gone then [] else [ms[0]]) + Survivors(ms[1..], gone)
  }

  lemma {:induction false} SurvivorsForget(ms: seq<Meeting>, gone: set<Meeting>)
    requires forall m :: m in gone ==> IsTranscribed(m) && m.policy != Forever
    ensures ForeverBytes(Survivors(ms, gone)) == ForeverBytes(ms)
    ensures UntranscribedBytes(Survivors(ms, gone)) == UntranscribedBytes(ms)
  {
    if ms != [] {
      SurvivorsForget(ms[1..], gone);
      var rest := Survivors(ms[1..], gone);
      assert ([ms[0]] + rest)[1..] == rest && [] + rest == rest;
    }
  }

  lemma {:induction false} NoneDue(ms: seq<Meeting>, now: nat, s: Settings)
    requires forall m :: m in ms ==> !Due(m, now, s)
    ensures DueOf(ms, now, s) == []
  {
    if ms != [] { NoneDue(ms[1..], now, s); }
  }

  lemma {:induction false} NoCandidates(ms: seq<Meeting>, now: nat, s: Settings)
    requires forall m :: m in ms ==> !Candidate(m, now, s)
    ensures CandidatesOf(ms, now, s) == []
  {
    if ms != [] { NoCandidates(ms[1..], now, s); }
  }

  lemma {:induction false} RemoveAt(b: seq<Meeting>, i: nat)
    requires i < |b|
    ensures multiset(b) == multiset(b[..i] + b[i + 1..]) + multiset{b[i]}
    ensures Bytes(b) == Bytes(b[..i] + b[i + 1..]) + b[i].bytes
  {
    assert b == b[..i] + [b[i]] + b[i + 1..];
    BytesConcat(b[..i], b[i + 1..]);
    BytesSnoc(b, i);
    assert b == b[..i + 1] + b[i + 1..];
    BytesConcat(b[..i + 1], b[i + 1..]);
  }

  lemma {:induction false} FewerBytes(a: seq<Meeting>, b: seq<Meeting>)
    requires multiset(a) <= multiset(b)
    ensures Bytes(a) <= Bytes(b)
  {
    if a != [] {
      assert a[0] in multiset(a);
      var i :| 0 <= i < |b| && b[i] == a[0];
      RemoveAt(b, i);
      assert a == [a[0]] + a[1..];
      assert multiset(a) == multiset{a[0]} + multiset(a[1..]);
      forall m ensures multiset(a[1..])[m] <= multiset(b[..i] + b[i + 1..])[m] {
        assert multiset(a)[m] <= multiset(b)[m];
      }
      FewerBytes(a[1..], b[..i] + b[i + 1..]);
    }
  }

  lemma {:induction false} SurvivingCandidates(ms: seq<Meeting>, gone: set<Meeting>, now: nat, s: Settings, m: Meeting)
    ensures multiset(CandidatesOf(Survivors(ms, gone), now, s))[m]
            == if m in gone then 0 else multiset(CandidatesOf(ms, now, s))[m]
  {
    var left := Survivors(ms, gone);
    if ms == [] {
    } else {
      SurvivingCandidates(ms[1..], gone, now, s, m);
      var rest := Survivors(ms[1..], gone);
      assert ([ms[0]] + rest)[1..] == rest && [] + rest == rest;
      assert multiset(CandidatesOf(ms, now, s)) == multiset(OnlyIf(Candidate(ms[0], now, s), ms[0])) + multiset(CandidatesOf(ms[1..], now, s));
      if ms[0] !in gone {
        assert multiset(CandidatesOf(left, now, s)) == multiset(OnlyIf(Candidate(ms[0], now, s), ms[0])) + multiset(CandidatesOf(rest, now, s));
      }
    }
  }

  lemma {:induction false} CandidatesLeft(now: nat, ms: seq<Meeting>, s: Settings, k: nat, gone: set<Meeting>)
    requires k <= |CandidatesOf(ms, now, s)|
    requires forall m :: m in gone <==> m in ms && Evicts(now, ms, s, k, m)
    ensures multiset(CandidatesOf(Survivors(ms, gone), now, s)) <= multiset(ByAge(CandidatesOf(ms, now, s))[k..])
  {
    var queue := ByAge(CandidatesOf(ms, now, s));
    assert queue == queue[..k] + queue[k..];
    assert multiset(queue) == multiset(queue[..k]) + multiset(queue[k..]);
    forall m ensures multiset(CandidatesOf(Survivors(ms, gone), now, s))[m] <= multiset(queue[k..])[m] {
      SurvivingCandidates(ms, gone, now, s, m);
      if m in queue[..k] {
        PrefixMember(queue, k, m);
        assert m in gone;
      }
    }
  }

  lemma {:induction false} GoneIsUnprotected(now: nat, ms: seq<Meeting>, s: Settings, k: nat, gone: set<Meeting>)
    requires k <= |CandidatesOf(ms, now, s)|
    requires forall m :: m in gone <==> m in ms && Evicts(now, ms, s, k, m)
    ensures forall m :: m in gone ==> IsTranscribed(m) && m.policy != Forever
    ensures DueOf(Survivors(ms, gone), now, s) == []
  {
    forall m | m in gone ensures IsTranscribed(m) && m.policy != Forever {
      if m !in DueOf(ms, now, s) { PrefixMember(ByAge(CandidatesOf(ms, now, s)), k, m); }
    }
    NoneDue(Survivors(ms, gone), now, s);
  }

  lemma {:induction false} OneOfEach(ms: seq<Meeting>, m: Meeting)
    requires UniqueIds(ms)
    ensures multiset(ms)[m] <= 1
  {
    if ms != [] {
      assert ms == [ms[0]] + ms[1..];
      OneOfEach(ms[1..], m);
      assert forall i :: 0 <= i < |ms[1..]| ==> ms[1..][i].id != ms[0].id;
    }
  }

  lemma {:induction false} CandidatesAmong(ms: seq<Meeting>, now: nat, s: Settings, m: Meeting)
    ensures multiset(CandidatesOf(ms, now, s))[m] <= multiset(ms)[m]
  {
    if ms != [] {
      CandidatesAmong(ms[1..], now, s, m);
      assert ms == [ms[0]] + ms[1..];
      assert multiset(CandidatesOf(ms, now, s)) == multiset(OnlyIf(Candidate(ms[0], now, s), ms[0])) + multiset(CandidatesOf(ms[1..], now, s));
    }
  }

  /** With unique ids the surviving candidates are exactly the ones passed over. */
  lemma {:induction false} CandidatesExactly(now: nat, ms: seq<Meeting>, s: Settings, k: nat, gone: set<Meeting>)
    requires UniqueIds(ms) && k <= |CandidatesOf(ms, now, s)|
    requires forall m :: m in gone <==> m in ms && Evicts(now, ms, s, k, m)
    ensures multiset(ByAge(CandidatesOf(ms, now, s))[k..]) <= multiset(CandidatesOf(Survivors(ms, gone), now, s))
  {
    hide CandidatesOf, ByAge, DueOf, Survivors, UniqueIds, Candidate, Due;
    var queue := ByAge(CandidatesOf(ms, now, s));
    forall m ensures multiset(queue[k..])[m] <= multiset(CandidatesOf(Survivors(ms, gone), now, s))[m] {
      SurvivingCandidates(ms, gone, now, s, m);
      OneOfEach(ms, m);
      CandidatesAmong(ms, now, s, m);
      SuffixOnly(queue, k, m);
      if m in queue[k..] {
        assert m in CandidatesOf(ms, now, s);
        NotDueToo(ms, now, s, m);
        assert m !in gone;
      }
    }
  }

  // What occurs once, and in the rest, does not occur in the prefix.
  lemma {:induction false} SuffixOnly(queue: seq<Meeting>, k: nat, m: Meeting)
    requires k <= |queue| && multiset(queue)[m] <= 1
    ensures multiset(queue[k..])[m] <= multiset(queue)[m]
    ensures m in queue[k..] ==> m in queue && m !in queue[..k]
  {
    assert queue == queue[..k] + queue[k..];
    assert multiset(queue) == multiset(queue[..k]) + multiset(queue[k..]);
    assert m in queue[..k] <==> multiset(queue[..k])[m] > 0;
    assert m in queue[k..] <==> multiset(queue[k..])[m] > 0;
  }

  lemma {:induction false} NotDueToo(ms: seq<Meeting>, now: nat, s: Settings, m: Meeting)
    requires m in CandidatesOf(ms, now, s)
    ensures m !in DueOf(ms, now, s)
  {
  }

  /** Carrying out a plan leaves nothing due and no more than it promised; with
      unique ids, exactly what it promised. */
  lemma {:induction false} SurvivorsFit(now: nat, ms: seq<Meeting>, s: Settings, plan: Plan, k: nat, gone: set<Meeting>)
    requires IsPlan(now, ms, s, plan, k)
    requires forall m :: m in gone <==> m in ms && Evicts(now, ms, s, k, m)
    ensures Bytes(Survivors(ms, gone)) <= plan.after
    ensures UniqueIds(ms) ==> Bytes(Survivors(ms, gone)) == plan.after
    ensures DueOf(Survivors(ms, gone), now, s) == []
  {
    hide Warnings, AgeEvictions, BudgetEvictions, DueOf, CandidatesOf, ByAge, Survivors, ForeverBytes, UntranscribedBytes, Bytes, UniqueIds, Evicts;
    NoBytes();
    var left, queue := Survivors(ms, gone), ByAge(CandidatesOf(ms, now, s));
    GoneIsUnprotected(now, ms, s, k, gone);
    SurvivorsForget(ms, gone);
    BytesPartition(ms, now, s);
    BytesPartition(left, now, s);
    CandidatesLeft(now, ms, s, k, gone);
    FewerBytes(CandidatesOf(left, now, s), queue[k..]);
    if UniqueIds(ms) {
      CandidatesExactly(now, ms, s, k, gone);
      FewerBytes(queue[k..], CandidatesOf(left, now, s));
    }
    assert queue == queue[..k] + queue[k..];
    BytesConcat(queue[..k], queue[k..]);
  }

  /** Planning what survives, at the same instant, evicts nothing, and with unique
      ids comes to the same total and the same warnings. */
  lemma {:induction false} ReplanEvictsNothing(now: nat, ms: seq<Meeting>, s: Settings, plan: Plan, k: nat, gone: set<Meeting>, again: Plan, l: nat)
    requires IsPlan(now, ms, s, plan, k)
    requires forall m :: m in gone <==> m in ms && Evicts(now, ms, s, k, m)
    requires IsPlan(now, Survivors(ms, gone), s, again, l)
    ensures again.evictions == []
    ensures UniqueIds(ms) ==> again.after == plan.after && again.warnings == plan.warnings
  {
    hide DueOf, CandidatesOf, ByAge, Survivors, AgeEvictions, BudgetEvictions, ForeverBytes, UntranscribedBytes, Evicts, Bytes, IsTranscribed;
    var left := Survivors(ms, gone);
    ReplanPicksNothing(now, ms, s, plan, k, gone, again, l);
    SurvivorsFit(now, ms, s, plan, k, gone);
    GoneIsUnprotected(now, ms, s, k, gone);
    SurvivorsForget(ms, gone);
    assert ByAge(CandidatesOf(left, now, s))[..0] == [];
    NoBytes();
  }

  lemma {:induction false} NoBytes()
    ensures Bytes([]) == 0
  {
  }

  lemma {:induction false} ReplanPicksNothing(now: nat, ms: seq<Meeting>, s: Settings, plan: Plan, k: nat, gone: set<Meeting>, again: Plan, l: nat)
    requires IsPlan(now, ms, s, plan, k)
    requires forall m :: m in gone <==> m in ms && Evicts(now, ms, s, k, m)
    requires IsPlan(now, Survivors(ms, gone), s, again, l)
    ensures l == 0 && DueOf(Survivors(ms, gone), now, s) == [] && again.evictions == []
  {
    hide DueOf, AgeEvictions, ForeverBytes, UntranscribedBytes, Warnings, CandidatesOf, Survivors, Due;
    var left := Survivors(ms, gone);
    SurvivorsFit(now, ms, s, plan, k, gone);
    if plan.after <= s.budget {
      if l > 0 { BytesPrefix(ByAge(CandidatesOf(left, now, s)), l - 1, l); }
    } else {
      var queue := ByAge(CandidatesOf(ms, now, s));
      assert k == |queue| && queue[..k] == queue;
      NoCandidates(left, now, s);
    }
  }

  // ---------------------------------------------------------------- the planner

  lemma {:induction false} DueSnoc(ms: seq<Meeting>, m: Meeting, now: nat, s: Settings)
    ensures DueOf(ms + [m], now, s) == DueOf(ms, now, s) + OnlyIf(Due(m, now, s), m)
  {
    hide Due, OnlyIf;
    var last := OnlyIf(Due(m, now, s), m);
    if ms == [] {
      assert [] + [m] == [m] && [m][1..] == [] && [] + last == last && last + [] == last;
    } else {
      DueSnoc(ms[1..], m, now, s);
      assert (ms + [m])[1..] == ms[1..] + [m] && (ms + [m])[0] == ms[0];
      var first, rest := OnlyIf(Due(ms[0], now, s), ms[0]), DueOf(ms[1..], now, s);
      assert first + (rest + last) == (first + rest) + last;
    }
  }

  lemma {:induction false} CandidateSnoc(ms: seq<Meeting>, m: Meeting, now: nat, s: Settings)
    ensures CandidatesOf(ms + [m], now, s) == CandidatesOf(ms, now, s) + OnlyIf(Candidate(m, now, s), m)
  {
    hide Candidate, OnlyIf;
    var last := OnlyIf(Candidate(m, now, s), m);
    if ms == [] {
      assert [] + [m] == [m] && [m][1..] == [] && [] + last == last && last + [] == last;
    } else {
      CandidateSnoc(ms[1..], m, now, s);
      assert (ms + [m])[1..] == ms[1..] + [m] && (ms + [m])[0] == ms[0];
      var first, rest := OnlyIf(Candidate(ms[0], now, s), ms[0]), CandidatesOf(ms[1..], now, s);
      assert first + (rest + last) == (first + rest) + last;
    }
  }

  lemma {:induction false} ProtectedSnoc(ms: seq<Meeting>, m: Meeting)
    ensures ForeverBytes(ms + [m]) == ForeverBytes(ms) + if m.policy == Forever then m.bytes else 0
    ensures UntranscribedBytes(ms + [m]) == UntranscribedBytes(ms) + if IsUntranscribed(m) then m.bytes else 0
  {
    if ms == [] {
      assert [] + [m] == [m] && [m][1..] == [];
    } else {
      ProtectedSnoc(ms[1..], m);
      assert (ms + [m])[1..] == ms[1..] + [m];
    }
  }

  ghost function Ids(ms: seq<Meeting>): set<nat>
  {
    set m | m in ms :: m.id
  }

  /** The ledger of the policy pass: what it evicted, for which meetings. */
  ghost predicate Expired(due: seq<Meeting>, s: Settings, evictions: seq<Eviction>, ids: set<nat>, bytes: nat)
  {
    evictions == AgeEvictions(due, s) && ids == Ids(due) && bytes == Bytes(due)
  }

  method ExpireNext(m: Meeting, now: nat, s: Settings, ghost due: seq<Meeting>, before: seq<Eviction>, ids: set<nat>, bytes: nat)
    returns (evictions: seq<Eviction>, expired: set<nat>, reclaimed: nat)
    requires Expired(due, s, before, ids, bytes)
    ensures Expired(due + OnlyIf(Due(m, now, s), m), s, evictions, expired, reclaimed)
  {
    evictions, expired, reclaimed := before, ids, bytes;
    var expires := ExpiresAt(m, s.defaultDays);
    if !(m.bytes == 0 && m.paths == []) && expires.Some? && expires.value <= now {
      AgeSnoc(due, m, s);
      expired := expired + {m.id};
      evictions := evictions + [EvictForAge(m, s)];
      reclaimed := reclaimed + m.bytes;
    } else {
      assert due + [] == due;
    }
  }

  /** The first pass takes every meeting that is due. */
  method PolicyPass(now: nat, ms: seq<Meeting>, s: Settings) returns (evictions: seq<Eviction>, expired: set<nat>, reclaimed: nat)
    ensures Expired(DueOf(ms, now, s), s, evictions, expired, reclaimed)
  {
    evictions, expired, reclaimed := [], {}, 0;
    assert ms[..0] == [] && Expired(DueOf([], now, s), s, evictions, expired, reclaimed);
    hide Expired, DueOf, OnlyIf, Due;
    for i := 0 to |ms|
      invariant Expired(DueOf(ms[..i], now, s), s, evictions, expired, reclaimed)
    {
      assert ms[..i + 1] == ms[..i] + [ms[i]];
      DueSnoc(ms[..i], ms[i], now, s);
      evictions, expired, reclaimed := ExpireNext(ms[i], now, s, DueOf(ms[..i], now, s), evictions, expired, reclaimed);
    }
    assert ms[..|ms|] == ms;
  }

  lemma {:induction false} AgeSnoc(due: seq<Meeting>, m: Meeting, s: Settings)
    ensures AgeEvictions(due + [m], s) == AgeEvictions(due, s) + [EvictForAge(m, s)]
    ensures Ids(due + [m]) == Ids(due) + {m.id} && Bytes(due + [m]) == Bytes(due) + m.bytes
  {
    BytesConcat(due, [m]);
    assert [m][1..] == [];
    forall x ensures x in due + [m] <==> x in due || x == m {}
  }

  /** Everything the budget pass may consider, in input order. */
  method Collect(now: nat, ms: seq<Meeting>, s: Settings, expired: set<nat>) returns (candidates: seq<Meeting>)
    requires UniqueIds(ms) && expired == Ids(DueOf(ms, now, s))
    ensures candidates == CandidatesOf(ms, now, s)
  {
    candidates := [];
    for i := 0 to |ms|
      invariant candidates == CandidatesOf(ms[..i], now, s)
    {
      var m := ms[i];
      assert ms[..i + 1] == ms[..i] + [m];
      CandidateSnoc(ms[..i], m, now, s);
      OnlyItself(ms, DueOf(ms, now, s), i);
      assert m in ms;
      hide CandidatesOf, DueOf;
      if m.id !in expired && IsEvictable(m) { candidates := candidates + [m]; }
    }
    assert ms[..|ms|] == ms;
  }

  // With unique ids, an id stands for its own meeting only.
  lemma {:induction false} OnlyItself(ms: seq<Meeting>, some: seq<Meeting>, i: nat)
    requires UniqueIds(ms) && i < |ms| && forall m :: m in some ==> m in ms
    ensures ms[i].id in Ids(some) <==> ms[i] in some
  {
    if ms[i].id in Ids(some) {
      var m :| m in some && m.id == ms[i].id;
      var j :| 0 <= j < |ms| && ms[j] == m;
      assert i == j;
    }
  }

  /** Pass 2: evict oldest-first until the rest fits. */
  method BudgetPass(queue: seq<Meeting>, budget: nat, start: nat) returns (evictions: seq<Eviction>, k: nat, remaining: nat)
    requires Bytes(queue) <= start
    ensures k <= |queue| && evictions == BudgetEvictions(queue[..k]) && start == remaining + Bytes(queue[..k])
    ensures k > 0 ==> remaining + queue[k - 1].bytes > budget
    ensures k < |queue| ==> remaining <= budget
  {
    evictions, k, remaining := [], 0, start;
    while k < |queue|
      invariant k <= |queue| && evictions == BudgetEvictions(queue[..k]) && start == remaining + Bytes(queue[..k])
      invariant k > 0 ==> remaining + queue[k - 1].bytes > budget
    {
      if remaining <= budget { break; }
      BytesSnoc(queue, k);
      assert queue[..k + 1] == queue[..k] + [queue[k]];
      QueueBytes(queue, k + 1);
      remaining := remaining - queue[k].bytes;
      evictions := evictions + [EvictForBudget(queue[k])];
      k := k + 1;
    }
  }

  lemma {:induction false} QueueBytes(queue: seq<Meeting>, k: nat)
    requires k <= |queue|
    ensures Bytes(queue[..k]) <= Bytes(queue)
  {
    assert queue == queue[..k] + queue[k..];
    BytesConcat(queue[..k], queue[k..]);
  }

  /** Which protected audio the survivors hold. */
  method Protected(ms: seq<Meeting>, gone: set<nat>) returns (forever: nat, untranscribed: nat)
    requires forall i :: 0 <= i < |ms| && ms[i].id in gone ==> ms[i].policy != Forever && IsTranscribed(ms[i])
    ensures forever == ForeverBytes(ms) && untranscribed == UntranscribedBytes(ms)
  {
    forever, untranscribed := 0, 0;
    for i := 0 to |ms|
      invariant forever == ForeverBytes(ms[..i]) && untranscribed == UntranscribedBytes(ms[..i])
    {
      var m := ms[i];
      assert ms[..i + 1] == ms[..i] + [m];
      ProtectedSnoc(ms[..i], m);
      if m.id !in gone {
        if m.policy == Forever { forever := forever + m.bytes; }
        else if !IsTranscribed(m) { untranscribed := untranscribed + m.bytes; }
      }
    }
    assert ms[..|ms|] == ms;
  }

  /** Both passes. */
  method ChooseEvictions(now: nat, ms: seq<Meeting>, s: Settings, before: nat) returns (evictions: seq<Eviction>, after: nat)
    requires UniqueIds(ms) && before == Bytes(ms)
    ensures exists k: nat :: Picks(now, ms, s, evictions, after, k)
  {
    hide ForeverBytes, UntranscribedBytes, DueOf, CandidatesOf, ByAge, AgeEvictions, BudgetEvictions;
    var expired, reclaimed;
    evictions, expired, reclaimed := PolicyPass(now, ms, s);
    BytesPartition(ms, now, s);
    ghost var k := 0;
    after := before - reclaimed;
    if after > s.budget {
      var candidates := Collect(now, ms, s, expired);
      var more;
      more, k, after := BudgetPass(ByAge(candidates), s.budget, after);
      evictions := evictions + more;
    } else {
      assert evictions + BudgetEvictions(ByAge(CandidatesOf(ms, now, s))[..0]) == evictions;
    }
    assert Picks(now, ms, s, evictions, after, k);
  }

  /** The planner: a function of the library, the settings and the moment. */
  method PlanSweep(now: nat, ms: seq<Meeting>, s: Settings) returns (plan: Plan)
    requires UniqueIds(ms)
    ensures exists k: nat :: IsPlan(now, ms, s, plan, k)
  {
    hide Picks, Bytes, ForeverBytes, UntranscribedBytes;
    var before := TotalBytes(ms);
    var evictions, after := ChooseEvictions(now, ms, s, before);
    ghost var k: nat :| Picks(now, ms, s, evictions, after, k);
    var warnings := [];
    if after > s.budget {
      var gone := set e | e in evictions :: e.id;
      EvictedIsUnprotected(now, ms, s, evictions, after, k);
      var forever, untranscribed := Protected(ms, gone);
      if forever > 0 { warnings := warnings + [OnlyForeverRemains(after - s.budget, forever)]; }
      if untranscribed > 0 { warnings := warnings + [OnlyUntranscribedRemains(after - s.budget, untranscribed)]; }
    }
    plan := Plan(evictions, warnings, before, after, s.budget);
    assert IsPlan(now, ms, s, plan, k);
  }

  lemma {:induction false} EvictedIsUnprotected(now: nat, ms: seq<Meeting>, s: Settings, evictions: seq<Eviction>, after: nat, k: nat)
    requires UniqueIds(ms) && Picks(now, ms, s, evictions, after, k)
    ensures forall i, e :: 0 <= i < |ms| && e in evictions && ms[i].id == e.id ==> ms[i].policy != Forever && IsTranscribed(ms[i])
  {
    hide DueOf, CandidatesOf, ByAge, AgeEvictions, BudgetEvictions, Bytes, ForeverBytes, UntranscribedBytes;
    var plan := Plan(evictions, if after > s.budget then Warnings(ms, after - s.budget) else [], Bytes(ms), after, s.budget);
    ProtectedAudioStays(now, ms, s, plan, k);
    hide Picks;
    forall i, e | 0 <= i < |ms| && e in evictions && ms[i].id == e.id ensures ms[i].policy != Forever && IsTranscribed(ms[i]) {
      var m :| m in ms && e.id == m.id && m.policy != Forever && IsTranscribed(m);
      var j :| 0 <= j < |ms| && ms[j] == m;
      assert i == j;
    }
  }

  method TotalBytes(ms: seq<Meeting>) returns (total: nat)
    ensures total == Bytes(ms)
  {
    total := 0;
    for i := 0 to |ms|
      invariant total == Bytes(ms[..i])
    {
      BytesSnoc(ms, i);
      total := total + ms[i].bytes;
    }
    assert ms[..|ms|] == ms;
  }
}
