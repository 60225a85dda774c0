/** One replay stream: an append-only byte log with durable boundary proofs,
    step by step, with a crash that may tear the file anywhere past the last
    sync. */
module ReplayLog {
  import opened Outcomes
  import opened ReplaySamples

  const MAX_READ_SAMPLES: nat := 16_000

  /** A boundary proof: where it says the stream ends. `covered` remembers what
      the stream held when the proof was made. */
  datatype Mark = Mark(through: nat, covered: seq<Byte>, journal: nat)

  datatype Kind = Complete | Projected

  /** What the owner is in the middle of: removing old proofs before an append,
      or writing bytes after which the end will be `next`. */
  datatype Task = Idle | DropComplete(bytes: seq<Byte>, next: nat) | DropProjected(bytes: seq<Byte>, next: nat)
    | Writing(bytes: seq<Byte>, next: nat)

  datatype Writer = Writer(end: nat, failed: bool, sealed: bool, prefixOnly: bool, task: Task)

  /** A reader making a proof: checked, then synced, then written. */
  datatype Marking = NoMark | Checked(kind: Kind, through: nat, journal: nat) | Synced(kind: Kind, mark: Mark)

  datatype Log = Log(
    first: nat, audio: seq<Byte>, synced: nat, sealed: Option<Mark>, complete: Option<Mark>, projected: Option<Mark>,
    journal: nat, writer: Option<Writer>, marking: Marking)

  function End(s: Log): nat { s.first + |s.audio| / 2 }

  predicate Aligned(s: Log) { |s.audio| % 2 == 0 }

  /** The proof is about exactly the stream as it stands. */
  predicate Matches(s: Log, m: Option<Mark>) { m.Some? && Aligned(s) && m.value.through == End(s) }

  /** A seal, if there is one, still matches; otherwise every operation refuses. */
  predicate SealHolds(s: Log) { s.sealed.Some? ==> Matches(s, s.sealed) }

  predicate IsComplete(s: Log) { SealHolds(s) && Matches(s, s.complete) }

  predicate IsProjected(s: Log)
  {
    IsComplete(s) && Matches(s, s.projected) && s.projected.value.journal == s.journal
  }

  datatype Step =
    | Append(pcm: seq<Pcm>)
    | Work(count: nat)
    | WriteFails(count: nat)
    | Sync
    | Seal
    | Resume
    | ResumePrefix
    | Release
    | Restore(candidate: seq<Pcm>)
    | BeginMark(kind: Kind, through: nat, journalBytes: nat)
    | FinishMark
    | GrowJournal(count: nat)
    | Crash(kept: nat)

  predicate Ready(s: Log) { s.writer.Some? && !s.writer.value.failed && s.writer.value.task == Idle }

  function BeginAppend(s: Log, pcm: seq<Pcm>): Log
  {
    if Ready(s) && !s.writer.value.sealed && !s.writer.value.prefixOnly && pcm != [] then
      s.(writer := Some(s.writer.value.(task := DropComplete(Encode(pcm), s.writer.value.end + |pcm|))))
    else s
  }

  /** The owner's next primitive step; a write may place any part of its bytes. */
  function WorkStep(s: Log, count: nat): Log
    requires s.writer.Some?
  {
    var w := s.writer.value;
    match w.task
    case Idle => s
    case DropComplete(bytes, next) => s.(complete := None, writer := Some(w.(task := DropProjected(bytes, next))))
    case DropProjected(bytes, next) => s.(projected := None, writer := Some(w.(task := Writing(bytes, next))))
    case Writing(bytes, next) =>
      if |bytes| <= count then s.(audio := s.audio + bytes, writer := Some(w.(end := next, task := Idle)))
      else s.(audio := s.audio + bytes[..count], writer := Some(w.(task := Writing(bytes[count..], next))))
  }

  /** A disk error mid-write poisons the owner. */
  function FailStep(s: Log, count: nat): Log
    requires s.writer.Some?
  {
    var w := s.writer.value;
    if w.task.Writing? && count <= |w.task.bytes| then
      s.(audio := s.audio + w.task.bytes[..count], writer := Some(w.(failed := true, task := Idle)))
    else s.(writer := Some(w.(failed := true, task := Idle)))
  }

  function SealStep(s: Log): Log
  {
    if Ready(s) && !s.writer.value.prefixOnly && SealHolds(s) && Aligned(s) && s.writer.value.end == End(s) then
      s.(synced := |s.audio|, sealed := Some(Mark(End(s), s.audio, 0)), writer := Some(s.writer.value.(sealed := true)))
    else s
  }

  /** Take the lease again; a torn half-sample is cut before anything is appended. */
  function ResumeStep(s: Log): Log
  {
    if s.writer.Some? || !SealHolds(s) then s
    else
      var kept := s.audio[..2 * (|s.audio| / 2)];
      s.(audio := kept, synced := if Aligned(s) then s.synced else |kept|,
         writer := Some(Writer(End(s), false, s.sealed.Some?, false, Idle)))
  }

  function ResumePrefixStep(s: Log): Log
  {
    if s.writer.Some? || !SealHolds(s) then s
    else s.(synced := |s.audio|, writer := Some(Writer(End(s), false, s.sealed.Some?, true, Idle)))
  }

  /** Append the part of a candidate past the saved samples, once every saved
      sample agrees. */
  function RestoreStep(s: Log, candidate: seq<Pcm>): Log
  {
    if Ready(s) && s.sealed.None? && s.writer.value.end == End(s) && Samples(s.audio) <= candidate then
      var n := |Samples(s.audio)|;
      var m := if |candidate| - n < MAX_READ_SAMPLES then |candidate| - n else MAX_READ_SAMPLES;
      s.(audio := s.audio[..2 * (|s.audio| / 2)], synced := if s.synced < 2 * (|s.audio| / 2) then s.synced else 2 * (|s.audio| / 2),
         writer := Some(s.writer.value.(task := Writing(Encode(candidate[n..n + m]), End(s) + m))))
    else s
  }

  function BeginMarkStep(s: Log, kind: Kind, through: nat, journalBytes: nat): Log
  {
    if s.marking.NoMark? && SealHolds(s) && Aligned(s) && through == End(s)
       && (kind == Projected ==> IsComplete(s) && journalBytes == s.journal)
    then s.(marking := Checked(kind, through, journalBytes)) else s
  }

  /** Sync what was checked; then publish the proof atomically. */
  function FinishMarkStep(s: Log): Log
  {
    match s.marking
    case NoMark => s
    case Checked(kind, through, journal) =>
      if s.first <= through <= End(s)
      then s.(synced := |s.audio|, marking := Synced(kind, Mark(through, s.audio[..2 * (through - s.first)], journal)))
      else s.(marking := NoMark)
    case Synced(kind, mark) =>
      if kind == Complete then s.(complete := Some(mark), marking := NoMark) else s.(projected := Some(mark), marking := NoMark)
  }

  function Exec(s: Log, step: Step): Log
  {
    match step
    case Append(pcm) => BeginAppend(s, pcm)
    case Work(count) => if s.writer.Some? then WorkStep(s, count) else s
    case WriteFails(count) => if s.writer.Some? then FailStep(s, count) else s
    case Sync => if Ready(s) then s.(synced := |s.audio|) else s
    case Seal => SealStep(s)
    case Resume => ResumeStep(s)
    case ResumePrefix => ResumePrefixStep(s)
    case Release => if s.writer.Some? && s.writer.value.task == Idle then s.(writer := None) else s
    case Restore(candidate) => RestoreStep(s, candidate)
    case BeginMark(kind, through, journalBytes) => BeginMarkStep(s, kind, through, journalBytes)
    case FinishMark => FinishMarkStep(s)
    case GrowJournal(count) => s.(journal := s.journal + count)
    case Crash(kept) =>
      if s.synced <= kept <= |s.audio| then s.(audio := s.audio[..kept], writer := None, marking := NoMark)
      else s.(writer := None, marking := NoMark)
  }

  /** A fresh stream with its writer. */
  function Create(first: nat): Log
  {
    Log(first, [], 0, None, None, None, 0, Some(Writer(first, false, false, false, Idle)), NoMark)
  }

  // ---------------------------------------------------------------- invariant

  /** What a proof covered is still there, and durable. */
  ghost predicate MarkOk(s: Log, m: Mark)
  {
    && s.first <= m.through && |m.covered| == 2 * (m.through - s.first)
    && m.covered <= s.audio && |m.covered| <= s.synced
  }

  ghost predicate WriterOk(s: Log, w: Writer)
  {
    && (s.sealed.Some? ==> w.sealed)
    && (w.sealed ==> s.sealed.Some?)
    && (w.task == Idle && !w.failed ==> w.end == End(s) && (w.prefixOnly || Aligned(s)))
    && (w.task != Idle ==>
          !w.sealed && !w.failed && (|s.audio| + |w.task.bytes|) % 2 == 0 && w.task.next == s.first + (|s.audio| + |w.task.bytes|) / 2)
  }

  ghost predicate Inv(s: Log)
  {
    && s.synced <= |s.audio|
    && (s.sealed.Some? ==> MarkOk(s, s.sealed.value) && s.sealed.value.covered == s.audio)
    && (s.complete.Some? ==> MarkOk(s, s.complete.value))
    && (s.projected.Some? ==> MarkOk(s, s.projected.value))
    && (s.marking.Synced? ==> MarkOk(s, s.marking.mark))
    && (s.writer.Some? ==> WriterOk(s, s.writer.value))
  }

  lemma {:induction false} CreateOk(first: nat)
    ensures Inv(Create(first))
  {
  }

  // A proof survives a stream that only grows.
  lemma {:induction false} MarkStays(s: Log, t: Log, m: Option<Mark>)
    requires m.Some? ==> MarkOk(s, m.value)
    requires t.first == s.first && s.audio <= t.audio && s.synced <= t.synced
    ensures m.Some? ==> MarkOk(t, m.value)
  {
  }

  // So do all of them, and the proof being made.
  lemma {:induction false} MarksStay(s: Log, t: Log)
    requires Inv(s) && t.first == s.first && s.audio <= t.audio && s.synced <= t.synced
    ensures s.sealed.Some? ==> MarkOk(t, s.sealed.value)
    ensures s.complete.Some? ==> MarkOk(t, s.complete.value)
    ensures s.projected.Some? ==> MarkOk(t, s.projected.value)
    ensures s.marking.Synced? ==> MarkOk(t, s.marking.mark)
  {
    hide MarkOk, WriterOk;
    MarkStays(s, t, s.sealed);
    MarkStays(s, t, s.complete);
    MarkStays(s, t, s.projected);
    if s.marking.Synced? { MarkStays(s, t, Some(s.marking.mark)); }
  }

  lemma {:induction false} WorkKeeps(s: Log, count: nat)
    requires Inv(s) && s.writer.Some?
    ensures Inv(WorkStep(s, count)) && s.audio <= WorkStep(s, count).audio
  {
    hide MarkOk;
    MarksStay(s, WorkStep(s, count));
  }

  lemma {:induction false} FailKeeps(s: Log, count: nat)
    requires Inv(s) && s.writer.Some?
    ensures Inv(FailStep(s, count)) && s.audio <= FailStep(s, count).audio
  {
  }

  lemma {:induction false} ResumeKeeps(s: Log)
    requires Inv(s)
    ensures Inv(ResumeStep(s))
  {
    if s.sealed.Some? { assert |s.audio| % 2 == 0; }
  }

  lemma {:induction false} ResumePrefixKeeps(s: Log)
    requires Inv(s)
    ensures Inv(ResumePrefixStep(s))
  {
    hide MarkOk;
    MarksStay(s, ResumePrefixStep(s));
  }

  lemma {:induction false} RestoreKeeps(s: Log, candidate: seq<Pcm>)
    requires Inv(s)
    ensures Inv(RestoreStep(s, candidate))
  {
    hide Samples, Encode;
  }

  lemma {:induction false} SealKeeps(s: Log)
    requires Inv(s)
    ensures Inv(SealStep(s))
  {
  }

  lemma {:induction false} BeginMarkKeeps(s: Log, kind: Kind, through: nat, journalBytes: nat)
    requires Inv(s)
    ensures Inv(BeginMarkStep(s, kind, through, journalBytes))
  {
    hide Matches, IsComplete;
  }

  /** A proof is about a synced prefix, however far the stream has grown since. */
  lemma {:induction false} FinishMarkKeeps(s: Log)
    requires Inv(s)
    ensures Inv(FinishMarkStep(s))
  {
    if s.marking.Checked? && s.first <= s.marking.through <= End(s) {
      var n := 2 * (s.marking.through - s.first);
      assert n <= |s.audio| && s.audio[..n] <= s.audio;
      assert MarkOk(FinishMarkStep(s), FinishMarkStep(s).marking.mark);
    }
    hide MarkOk;
    MarksStay(s, FinishMarkStep(s));
  }

  lemma {:induction false} CrashKeeps(s: Log, kept: nat)
    requires Inv(s)
    ensures Inv(Exec(s, Crash(kept)))
  {
  }

  lemma {:induction false} StepKeeps(s: Log, step: Step)
    requires Inv(s)
    ensures Inv(Exec(s, step))
  {
    match step
    case Append(pcm) =>
    case Work(count) => if s.writer.Some? { WorkKeeps(s, count); }
    case WriteFails(count) => if s.writer.Some? { FailKeeps(s, count); }
    case Sync =>
    case Seal => SealKeeps(s);
    case Resume => ResumeKeeps(s);
    case ResumePrefix => ResumePrefixKeeps(s);
    case Release =>
    case Restore(candidate) => RestoreKeeps(s, candidate);
    case BeginMark(kind, through, journalBytes) => BeginMarkKeeps(s, kind, through, journalBytes);
    case FinishMark => FinishMarkKeeps(s);
    case GrowJournal(count) =>
    case Crash(kept) => CrashKeeps(s, kept);
  }

  ghost function Run(first: nat, steps: seq<Step>): (s: Log)
    ensures Inv(s)
  {
    if steps == [] then
      CreateOk(first);
      Create(first)
    else
      var before := Run(first, steps[..|steps| - 1]);
      StepKeeps(before, steps[|steps| - 1]);
      Exec(before, steps[|steps| - 1])
  }

  // ---------------------------------------------------------------- what every run keeps

  // One step past a longer run.
  lemma {:induction false} RunsOn(first: nat, steps: seq<Step>, more: seq<Step>)
    requires more != []
    ensures var n := |more| - 1;
            Run(first, steps + more) == Exec(Run(first, steps + more[..n]), more[n])
  {
    hide Inv, Exec;
    assert (steps + more)[..|steps + more| - 1] == steps + more[..|more| - 1];
  }

  /** However long a run goes on, no operation rewrites or removes a complete
      sample. */
  lemma {:induction false} CompleteSamplesStay(first: nat, steps: seq<Step>, more: seq<Step>)
    requires forall i :: 0 <= i < |more| ==> !more[i].Crash?
    ensures Samples(Run(first, steps).audio) <= Samples(Run(first, steps + more).audio)
    decreases |more|
  {
    hide Run, Exec, Inv, Samples;
    if more == [] {
      assert steps + more == steps;
    } else {
      var n := |more| - 1;
      CompleteSamplesStay(first, steps, more[..n]);
      RunsOn(first, steps, more);
      var before := Run(first, steps + more[..n]);
      SamplesStayOnce(before, more[n]);
      PrefixChain(Samples(Run(first, steps).audio), Samples(before.audio), Samples(Exec(before, more[n]).audio));
    }
  }

  lemma {:induction false} SamplesStayOnce(s: Log, step: Step)
    requires Inv(s) && !step.Crash?
    ensures Samples(s.audio) <= Samples(Exec(s, step).audio)
  {
    hide Exec, Inv;
    BytesStay(s, step);
    TrimKeepsSamples(s.audio);
    PrefixSamples(Kept(s.audio), Exec(s, step).audio);
  }

  lemma {:induction false} PrefixChain<T>(x: seq<T>, y: seq<T>, z: seq<T>)
    requires x <= y <= z
    ensures x <= z
  {
  }

  /** The bytes of the complete samples. */
  function Kept(bytes: seq<Byte>): seq<Byte> { bytes[..2 * (|bytes| / 2)] }

  /** Every byte of a complete sample stays where it is. */
  lemma {:induction false} BytesStay(s: Log, step: Step)
    requires Inv(s) && !step.Crash?
    ensures Kept(s.audio) <= Exec(s, step).audio
  {
  }

  /** A synced sample is there for good: no operation, failed write or crash, in
      any number and order, ever loses or changes it. */
  lemma {:induction false} SyncedSamplesStay(first: nat, steps: seq<Step>, more: seq<Step>)
    ensures var s, t := Run(first, steps), Run(first, steps + more);
            && Kept(s.audio[..s.synced]) <= Kept(t.audio[..t.synced])
            && Samples(s.audio[..s.synced]) <= Samples(t.audio)
    decreases |more|
  {
    var s, t := Run(first, steps), Run(first, steps + more);
    assert Inv(s) && Inv(t);
    assert s.synced <= |s.audio| && t.synced <= |t.audio|;
    hide Run, Exec, Inv, Samples;
    if more == [] {
      assert steps + more == steps;
    } else {
      var n := |more| - 1;
      SyncedSamplesStay(first, steps, more[..n]);
      RunsOn(first, steps, more);
      var before := Run(first, steps + more[..n]);
      SyncedBytesStay(before, more[n]);
      KeptGrows(before.audio, before.synced, t.audio, t.synced);
      hide Kept;
      PrefixChain(Kept(s.audio[..s.synced]), Kept(before.audio[..before.synced]), Kept(t.audio[..t.synced]));
    }
    SyncedMeans(s.audio[..s.synced], t.audio, t.synced);
  }

  lemma {:induction false} SyncedMeans(before: seq<Byte>, now: seq<Byte>, synced: nat)
    requires synced <= |now| && Kept(before) <= Kept(now[..synced])
    ensures Samples(before) <= Samples(now)
  {
    TrimKeepsSamples(before);
    assert Kept(now[..synced]) <= now;
    PrefixSamples(Kept(before), now);
  }

  lemma {:induction false} KeptGrows(a: seq<Byte>, n: nat, b: seq<Byte>, m: nat)
    requires n <= |a| && m <= |b| && 2 * (n / 2) <= m && a[..2 * (n / 2)] <= b
    ensures Kept(a[..n]) <= Kept(b[..m])
  {
  }

  /** A step keeps the synced bytes of complete samples, and keeps them synced. */
  lemma {:induction false} SyncedBytesStay(s: Log, step: Step)
    requires Inv(s)
    ensures var t, even := Exec(s, step), 2 * (s.synced / 2);
            s.synced <= |s.audio| && even <= t.synced <= |t.audio| && s.audio[..even] <= t.audio
  {
    hide Samples, Encode, MarkOk, WriterOk;
  }

  /** After a tear anywhere past the last sync, resuming yields exactly the
      complete samples that are left, and every synced one is. */
  lemma {:induction false} ResumeAfterTear(first: nat, steps: seq<Step>, kept: nat)
    requires Run(first, steps).synced <= kept <= |Run(first, steps).audio|
    ensures var s := Run(first, steps);
            var t := Exec(Exec(s, Crash(kept)), Resume);
            && Samples(t.audio) == Samples(s.audio[..kept]) && Aligned(t)
            && Ready(t) && t.writer.value.end == first + |Samples(t.audio)|
            && Samples(s.audio[..s.synced]) <= Samples(t.audio) <= Samples(s.audio)
  {
    var s := Run(first, steps);
    FirstStays(first, steps);
    hide Run;
    TearThenResume(s, kept);
    PrefixSamples(s.audio[..s.synced], s.audio[..kept]);
    PrefixSamples(s.audio[..kept], s.audio);
    hide Exec, Samples, Inv;
  }

  lemma {:induction false} TearThenResume(s: Log, kept: nat)
    requires Inv(s) && s.synced <= kept <= |s.audio|
    ensures var t := Exec(Exec(s, Crash(kept)), Resume);
            && Samples(t.audio) == Samples(s.audio[..kept]) && Aligned(t)
            && Ready(t) && t.writer.value.end == s.first + |Samples(t.audio)|
  {
    var torn := Exec(s, Crash(kept));
    TrimKeepsSamples(torn.audio);
    assert torn.sealed.Some? ==> kept == |s.audio| && |torn.audio| % 2 == 0;
  }

  lemma {:induction false} FirstStays(first: nat, steps: seq<Step>)
    ensures Run(first, steps).first == first
  {
    if steps != [] {
      FirstStays(first, steps[..|steps| - 1]);
      StepFirst(Run(first, steps[..|steps| - 1]), steps[|steps| - 1]);
    }
    hide Exec, Inv;
  }

  lemma {:induction false} StepFirst(s: Log, step: Step)
    ensures Exec(s, step).first == s.first
  {
  }

  /** Sealed input never changes again, whatever happens. */
  lemma {:induction false} SealedInputIsFrozen(first: nat, steps: seq<Step>, more: seq<Step>)
    requires Run(first, steps).sealed.Some?
    ensures var s, t := Run(first, steps), Run(first, steps + more);
            t.audio == s.audio && t.sealed.Some? && t.sealed.value.through == s.sealed.value.through == End(s)
    decreases |more|
  {
    if more == [] {
      assert steps + more == steps;
      assert Inv(Run(first, steps));
    } else {
      var n := |more| - 1;
      SealedInputIsFrozen(first, steps, more[..n]);
      assert (steps + more)[..|steps + more| - 1] == steps + more[..n];
      hide Inv, Exec;
      SealedStep(Run(first, steps + more[..n]), more[n]);
    }
  }

  lemma {:induction false} SealedStep(s: Log, step: Step)
    requires Inv(s) && s.sealed.Some?
    ensures var t := Exec(s, step);
            t.first == s.first && t.audio == s.audio && t.sealed.Some? && t.sealed.value.through == s.sealed.value.through == End(s)
  {
  }

  /** Retirement of this stream: the leases are free and both proofs match. */
  predicate MayRetire(s: Log) { s.writer.None? && IsProjected(s) }

  /** What asking for a lease returns. */
  datatype Lease = Free | Held | Failing

  /** A leg's files: no replay audio, perhaps with a stray proof; files that cannot
      even be looked for; or a stream, what its two leases answer, and whether the
      stream and the proofs asked for can be read. */
  datatype Leg =
    | Absent(stray: bool)
    | Unreadable
    | Present(log: Log, lease: Lease, journal: Lease, readable: bool)
  {
    /** A writer holds the lease of its stream. */
    function Owner(): Lease
      requires Present?
    {
      if lease.Free? && log.writer.Some? then Held else lease
    }
  }

  predicate Retirable(leg: Leg)
  {
    match leg
    case Absent(stray) => !stray
    case Unreadable => false
    case Present(log, lease, journal, readable) => lease.Free? && journal.Free? && readable && MayRetire(log)
  }

  /** Files that contradict each other, or that cannot be leased or read. A lease
      that is held is asked for first and hides whatever is behind it. */
  predicate Broken(leg: Leg)
  {
    match leg
    case Absent(stray) => stray
    case Unreadable => true
    case Present(log, _, journal, readable) =>
      || leg.Owner().Failing?
      || (leg.Owner().Free? && journal.Failing?)
      || (leg.Owner().Free? && journal.Free? && !(readable && SealHolds(log)))
  }

  /** Granted exactly when every leg is retirable; an error exactly when the first
      leg that is not is broken; otherwise not now. */
  method RetirementGuard(legs: seq<Leg>) returns (r: Result<bool>)
    ensures r == Ok(true) <==> forall i :: 0 <= i < |legs| ==> Retirable(legs[i])
    ensures r.Err? <==> exists i :: 0 <= i < |legs| && Broken(legs[i]) && forall j :: 0 <= j < i ==> Retirable(legs[j])
  {
    for i := 0 to |legs|
      invariant forall j :: 0 <= j < i ==> Retirable(legs[j])
    {
      match legs[i] {
        case Absent(stray) =>
          if stray { return Err("completion proof has no replay audio"); }
        case Unreadable =>
          return Err("replay files cannot be examined");
        case Present(log, _, journal, readable) =>
          if legs[i].Owner().Failing? { return Err("replay lease cannot be taken"); }
          if legs[i].Owner().Held? { return Ok(false); }
          if journal.Failing? { return Err("journal lease cannot be taken"); }
          if journal.Held? { return Ok(false); }
          if !readable { return Err("replay cannot be read"); }
          if !SealHolds(log) { return Err("sealed replay input changed"); }
          if !IsComplete(log) || !IsProjected(log) { return Ok(false); }
      }
    }
    return Ok(true);
  }

  /** A granted retirement means both proofs were made about exactly the bytes
      the stream holds now: no stale proof ever authorises it. */
  lemma {:induction false} RetirementIsCurrent(first: nat, steps: seq<Step>)
    requires MayRetire(Run(first, steps))
    ensures var s := Run(first, steps);
            && Aligned(s) && s.complete.value.through == s.projected.value.through == End(s)
            && s.complete.value.covered == s.audio == s.projected.value.covered
            && s.projected.value.journal == s.journal && s.synced == |s.audio|
  {
    var s := Run(first, steps);
    assert Inv(s);
    hide Run;
    assert MarkOk(s, s.complete.value) && MarkOk(s, s.projected.value);
  }

  /** An append that runs to its end adds exactly its samples. */
  lemma {:induction false} AppendAddsItsSamples(s: Log, pcm: seq<Pcm>)
    requires Inv(s) && Ready(s) && !s.writer.value.sealed && !s.writer.value.prefixOnly && pcm != []
    ensures var a := Exec(s, Append(pcm));
            var t := Exec(Exec(Exec(a, Work(0)), Work(0)), Work(2 * |pcm|));
            && Samples(t.audio) == Samples(s.audio) + pcm && Ready(t) && t.writer.value.end == s.writer.value.end + |pcm|
            && t.complete.None? && t.projected.None?
  {
    var a := Exec(s, Append(pcm));
    var b := Exec(Exec(a, Work(0)), Work(0));
    assert b.writer.value.task == Writing(Encode(pcm), s.writer.value.end + |pcm|) && b.audio == s.audio;
    assert b.complete.None? && b.projected.None? && |Encode(pcm)| == 2 * |pcm|;
    hide Encode, Samples;
    AppendSamples(s.audio, pcm);
  }

  /** After a sync no crash loses anything. */
  lemma {:induction false} SyncIsDurable(s: Log, kept: nat)
    requires Ready(s)
    ensures Exec(Exec(s, Sync), Crash(kept)).audio == s.audio
  {
  }

  /** Both proofs, in their order, about the stream as it stands. */
  function Prove(s: Log, kind: Kind): Log
  {
    Exec(Exec(Exec(s, BeginMark(kind, End(s), s.journal)), FinishMark), FinishMark)
  }

  /** A stream of whole samples that nobody is writing or proving can always be
      proved complete, then projected, and is then free to be retired. */
  lemma {:induction false} RetirementIsReachable(s: Log)
    requires Inv(s) && s.marking.NoMark? && s.writer.None? && Aligned(s)
    ensures IsComplete(Prove(s, Complete)) && !MayRetire(s.(projected := None))
    ensures MayRetire(Prove(Prove(s, Complete), Projected))
  {
    ProofHolds(s, Complete);
    ProofHolds(Prove(s, Complete), Projected);
    hide Prove, Inv;
  }

  /** So can one that its writer has let go. */
  lemma {:induction false} OwnedStreamCanRetire(s: Log)
    requires Inv(s) && Ready(s) && !s.writer.value.prefixOnly && s.marking.NoMark?
    ensures MayRetire(Prove(Prove(Exec(s, Release), Complete), Projected))
  {
    StepKeeps(s, Release);
    assert Aligned(s);
    RetirementIsReachable(Exec(s, Release));
    hide Prove, Inv;
  }

  /** A seal makes what is there durable and refuses every append after it. */
  lemma {:induction false} SealCloses(s: Log, pcm: seq<Pcm>)
    requires Inv(s) && Ready(s) && !s.writer.value.prefixOnly
    ensures var t := Exec(s, Seal);
            t.sealed.Some? && t.audio == s.audio && t.synced == |s.audio| && Exec(t, Append(pcm)) == t
  {
  }

  lemma {:induction false} ProofHolds(s: Log, kind: Kind)
    requires Inv(s) && s.marking.NoMark? && s.writer.None? && Aligned(s) && (kind == Projected ==> IsComplete(s))
    ensures var t := Prove(s, kind);
            && Inv(t) && t.marking.NoMark? && t.writer.None? && Aligned(t) && End(t) == End(s) && t.journal == s.journal
            && (kind == Complete ==> IsComplete(t))
            && (kind == Projected ==> IsProjected(t))
  {
    hide Inv, Exec;
    SealStands(s);
    ProofSteps(s, kind);
    var a := Exec(s, BeginMark(kind, End(s), s.journal));
    StepKeeps(s, BeginMark(kind, End(s), s.journal));
    StepKeeps(a, FinishMark);
    StepKeeps(Exec(a, FinishMark), FinishMark);
  }

  lemma {:induction false} SealStands(s: Log)
    requires Inv(s)
    ensures SealHolds(s)
  {
  }

  lemma {:induction false} ProofSteps(s: Log, kind: Kind)
    requires s.marking.NoMark? && SealHolds(s) && Aligned(s) && (kind == Projected ==> IsComplete(s))
    ensures var mark := Mark(End(s), s.audio[..2 * (End(s) - s.first)], s.journal);
            var b := s.(synced := |s.audio|);
            Prove(s, kind) == if kind == Complete then b.(complete := Some(mark)) else b.(projected := Some(mark))
  {
    var a := Exec(s, BeginMark(kind, End(s), s.journal));
    assert a == s.(marking := Checked(kind, End(s), s.journal));
    var mark := Mark(End(s), s.audio[..2 * (End(s) - s.first)], s.journal);
    assert Exec(a, FinishMark) == s.(synced := |s.audio|, marking := Synced(kind, mark));
  }

  /** One round of a restore that runs to its end. */
  function RestoreRound(s: Log, candidate: seq<Pcm>): Log { Exec(Exec(s, Restore(candidate)), Work(2 * MAX_READ_SAMPLES)) }

  function RestoreRounds(s: Log, candidate: seq<Pcm>, rounds: nat): Log
    decreases rounds
  {
    if rounds == 0 then s else RestoreRounds(RestoreRound(s, candidate), candidate, rounds - 1)
  }

  /** A stream that may be restored: owned, not sealed, and agreeing with the
      candidate in every sample it holds. */
  ghost predicate Restorable(s: Log, candidate: seq<Pcm>)
  {
    Inv(s) && Ready(s) && s.sealed.None? && Samples(s.audio) <= candidate
  }

  /** However far its write gets, a round appends the candidate's next samples and
      nothing else; run to its end, as many as one read may give. Without
      agreement nothing is written. */
  lemma {:induction false} RestoreAppendsTheSuffix(s: Log, candidate: seq<Pcm>, count: nat)
    requires Inv(s) && Ready(s) && s.sealed.None?
    ensures !(Samples(s.audio) <= candidate) ==> Exec(s, Restore(candidate)) == s
    ensures Samples(s.audio) <= candidate ==>
              var t := Exec(Exec(s, Restore(candidate)), Work(count));
              && Samples(s.audio) <= Samples(t.audio) <= candidate
              && var r := RestoreRound(s, candidate);
              && Restorable(r, candidate) && r.first == s.first
              && |Samples(r.audio)| == Least(|candidate|, |Samples(s.audio)| + MAX_READ_SAMPLES)
  {
    hide Samples, Encode, Inv;
    if Samples(s.audio) <= candidate {
      var n := |Samples(s.audio)|;
      var m := Least(|candidate| - n, MAX_READ_SAMPLES);
      var a, pcm := Exec(s, Restore(candidate)), candidate[n..n + m];
      RestoreStarts(s, candidate, m);
      assert Samples(s.audio) + pcm <= candidate;
      RestoreKeeps(s, candidate);
      hide Exec;
      RestoredSamples(a, candidate, pcm, count);
      RestoredSamples(a, candidate, pcm, 2 * MAX_READ_SAMPLES);
      StepKeeps(a, Work(2 * MAX_READ_SAMPLES));
    }
  }

  lemma {:induction false} RestoreStarts(s: Log, candidate: seq<Pcm>, m: nat)
    requires Inv(s) && Ready(s) && s.sealed.None? && Samples(s.audio) <= candidate
    requires m == Least(|candidate| - |Samples(s.audio)|, MAX_READ_SAMPLES)
    ensures var a, n := Exec(s, Restore(candidate)), |Samples(s.audio)|;
            && a == RestoreStep(s, candidate)
            && Aligned(a) && Samples(a.audio) == Samples(s.audio) && a.sealed.None? && a.first == s.first
            && a.writer.Some? && !a.writer.value.failed && a.writer.value.task.Writing?
            && a.writer.value.task.bytes == Encode(candidate[n..n + m])
  {
    hide Encode;
    TrimKeepsSamples(s.audio);
  }

  function Least(x: nat, y: nat): nat { if x < y then x else y }

  lemma {:induction false} RestoredSamples(a: Log, candidate: seq<Pcm>, pcm: seq<Pcm>, count: nat)
    requires Aligned(a) && a.writer.Some? && a.writer.value.task.Writing? && a.writer.value.task.bytes == Encode(pcm)
    requires !a.writer.value.failed && Samples(a.audio) + pcm <= candidate
    ensures var t := Exec(a, Work(count));
            && Samples(a.audio) <= Samples(t.audio) <= candidate && t.sealed == a.sealed && t.first == a.first
            && (count >= 2 * |pcm| ==> Samples(t.audio) == Samples(a.audio) + pcm && Ready(t))
  {
    var t := Exec(a, Work(count));
    var all := a.audio + Encode(pcm);
    AppendSamples(a.audio, pcm);
    assert a.audio <= t.audio <= all;
    hide Samples, Encode;
    PrefixSamples(a.audio, t.audio);
    PrefixSamples(t.audio, all);
    PrefixChain(Samples(t.audio), Samples(all), candidate);
  }

  /** Enough rounds make the stream the whole candidate. */
  lemma {:induction false} RestoreCompletes(s: Log, candidate: seq<Pcm>, rounds: nat)
    requires Restorable(s, candidate) && |candidate| <= |Samples(s.audio)| + rounds * MAX_READ_SAMPLES
    ensures Samples(RestoreRounds(s, candidate, rounds).audio) == candidate
    decreases rounds
  {
    hide Samples, Encode, Inv, Exec;
    if rounds == 0 {
      assert Samples(s.audio) == candidate;
    } else {
      RestoreAppendsTheSuffix(s, candidate, 0);
      hide Restorable, RestoreRound;
      RestoreCompletes(RestoreRound(s, candidate), candidate, rounds - 1);
    }
  }

  /** Read by absolute position; a half-sample at the end is not there yet. */
  method ReadFrom(s: Log, absolute: nat, maximum: nat) returns (r: Result<seq<Pcm>>)
    ensures r.Ok? <==> 1 <= maximum <= 16_000 && s.first <= absolute <= End(s)
    ensures r.Ok? ==>
              var from := absolute - s.first;
              && |r.value| == (if End(s) - absolute < maximum then End(s) - absolute else maximum)
              && r.value == Samples(s.audio)[from..from + |r.value|]
  {
    if maximum == 0 || maximum > MAX_READ_SAMPLES { return Err("replay reads must contain 1..=16000 samples"); }
    if absolute < s.first { return Err("replay cursor precedes source anchor"); }
    var relative := absolute - s.first;
    var samples := |s.audio| / 2;
    if samples < relative { return Err("replay cursor exceeds available audio"); }
    var count := if samples - relative < maximum then samples - relative else maximum;
    var out: seq<Pcm> := [];
    for i := 0 to count
      invariant |out| == i && out == Samples(s.audio)[relative..relative + i]
    {
      out := out + [FromBytes(s.audio[2 * (relative + i)], s.audio[2 * (relative + i) + 1])];
    }
    return Ok(out);
  }
}
