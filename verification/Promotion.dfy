/** Promotion of a finished session into the media tree, one primitive file
    operation at a time, with a crash, a power cut or an I/O failure possible
    between any two. */
module Promotion {
  import opened Outcomes

  datatype Leg = System | Mic

  const LEGS: set<Leg> := {System, Mic}

  /** What a file holds: part of a stream, or the complete archive of a leg. */
  datatype Blob = Partial | Whole(leg: Leg)

  type Dest = nat

  /** An archive in the session directory: the canonical name, or one in a
      reserved generation. */
  datatype Name = Legacy(leg: Leg) | Generation(id: nat, leg: Leg)

  datatype Encoded = Encoded(system: Name, mic: Name) {
    function Of(leg: Leg): Name { if leg == System then system else mic }
  }

  datatype Manifest = Manifest(claim: Option<Dest>, encoded: Option<Encoded>, promoted: Option<Dest>)

  /** The session directory: in place, renamed to be removed, or removed. */
  datatype Session = Present | Retired | Gone

  type Media = map<(Dest, Leg), Blob>

  /** A file with content: an archive, a track under its part name, or under
      its final name. */
  datatype Open = Archive(name: Name) | Part(dest: Dest, leg: Leg) | Final(dest: Dest, leg: Leg)

  datatype Disk = Disk(
    session: Session, manifest: Manifest, pcm: set<Leg>, archives: map<Name, Blob>, generations: nat,
    part: Media, media: Media, unsynced: set<Open>)

  /** Which primitive step comes next. `done` counts those already taken. */
  datatype Pc =
    | Idle
    | Encoding(target: Encoded, done: nat, promoting: bool)
    | Publishing(dest: Dest, done: nat)
    | Stamping(dest: Dest)
    | Verifying
    | Renaming
    | Removing
    | Discarding(done: nat)

  datatype State = State(disk: Disk, pc: Pc)

  datatype Op = ClaimAs(dest: Dest) | EncodeAgain | DiscardPcm | Promote

  datatype Step =
    | Begin(op: Op)
    | Proceed(replayDone: bool)
    | Fail
    | Crash
    | PowerCut
    | LoseMedia(dest: Dest, leg: Leg)
    | Erode(name: Name, leg: Leg)
    | SweepRetired

  // ---------------------------------------------------------------- checks

  predicate IsWhole<K(==)>(files: map<K, Blob>, k: K, leg: Leg)
  {
    k in files && files[k] == Whole(leg)
  }

  /** Both archives the manifest selects decode completely. */
  predicate SourcesWhole(d: Disk)
  {
    && d.manifest.encoded.Some?
    && IsWhole(d.archives, d.manifest.encoded.value.system, System)
    && IsWhole(d.archives, d.manifest.encoded.value.mic, Mic)
  }

  /** Both published tracks are there, complete. */
  predicate MediaWhole(d: Disk, dest: Dest)
  {
    IsWhole(d.media, (dest, System), System) && IsWhole(d.media, (dest, Mic), Mic)
  }

  predicate Verified(d: Disk)
  {
    d.manifest.promoted.Some? && d.manifest.encoded.Some? && MediaWhole(d, d.manifest.promoted.value)
  }

  /** Both inputs are there, or the microphone was never recorded and nothing
      stands under the name of its archive. */
  predicate InputsReady(recorded: set<Leg>, d: Disk)
  {
    System in d.pcm && (Mic in d.pcm || (Mic !in recorded && Legacy(Mic) !in d.archives))
  }

  // ---------------------------------------------------------------- primitive steps

  function BeginEncode(recorded: set<Leg>, d: Disk, promoting: bool): State
  {
    if !InputsReady(recorded, d) then State(d, Idle)
    else if d.manifest.encoded.Some? || Legacy(System) in d.archives || Legacy(Mic) in d.archives then
      State(d.(generations := d.generations + 1),
            Encoding(Encoded(Generation(d.generations, System), Generation(d.generations, Mic)), 0, promoting))
    else State(d, Encoding(Encoded(Legacy(System), Legacy(Mic)), 0, promoting))
  }

  function BeginPublish(d: Disk): State
  {
    if d.manifest.claim.Some? && SourcesWhole(d) then State(d, Publishing(d.manifest.claim.value, 0)) else State(d, Idle)
  }

  function BeginPromote(recorded: set<Leg>, d: Disk): State
  {
    if d.manifest.claim.None? then State(d, Idle)
    else if d.manifest.promoted.Some? && Verified(d) then State(d, Verifying)
    else if d.manifest.encoded.None? then BeginEncode(recorded, d, true)
    else BeginPublish(d)
  }

  function BeginOp(recorded: set<Leg>, d: Disk, op: Op): State
  {
    if d.session != Present then State(d, Idle)
    else match op
      case ClaimAs(dest) => State(d.(manifest := d.manifest.(claim := Some(dest))), Idle)
      case EncodeAgain => BeginEncode(recorded, d, false)
      case DiscardPcm => if SourcesWhole(d) then State(d, Discarding(0)) else State(d, Idle)
      case Promote => BeginPromote(recorded, d)
  }

  /** New content is in the page cache until it is synced. */
  function WriteArchive(d: Disk, name: Name, blob: Blob): Disk
  {
    d.(archives := d.archives[name := blob], unsynced := d.unsynced + {Archive(name)})
  }

  function WritePart(d: Disk, dest: Dest, leg: Leg, blob: Blob): Disk
  {
    d.(part := d.part[(dest, leg) := blob], unsynced := d.unsynced + {Part(dest, leg)})
  }

  function Sync(d: Disk, file: Open): Disk { d.(unsynced := d.unsynced - {file}) }

  /** Atomic; the content is as durable under the final name as it was before. */
  function Rename(d: Disk, dest: Dest, leg: Leg): Disk
    requires (dest, leg) in d.part
  {
    var moved := if Part(dest, leg) in d.unsynced then {Final(dest, leg)} else {};
    d.(media := d.media[(dest, leg) := d.part[(dest, leg)]], part := d.part - {(dest, leg)},
       unsynced := d.unsynced - {Part(dest, leg), Final(dest, leg)} + moved)
  }

  /** Create each archive, finish it, sync it; then select both in the manifest. */
  function EncodeStep(recorded: set<Leg>, d: Disk, pc: Pc): State
    requires pc.Encoding?
  {
    var target := pc.target;
    var leg := if pc.done < 3 then System else Mic;
    var name := target.Of(leg);
    if pc.done < 6 then
      var written :=
        if pc.done % 3 == 0 then WriteArchive(d, name, Partial)
        else if pc.done % 3 == 1 then WriteArchive(d, name, Whole(leg))
        else Sync(d, Archive(name));
      State(written, Encoding(target, pc.done + 1, pc.promoting))
    else
      var selected := d.(manifest := d.manifest.(encoded := Some(target)));
      if pc.promoting then BeginPublish(selected) else State(selected, Idle)
  }

  /** Copy each track under a part name, finish it, sync it, rename it. */
  function PublishStep(d: Disk, pc: Pc): State
    requires pc.Publishing?
  {
    var leg := if pc.done < 4 then System else Mic;
    var key := (pc.dest, leg);
    var next := Publishing(pc.dest, pc.done + 1);
    if pc.done >= 8 then State(d, Stamping(pc.dest))
    else if pc.done % 4 == 0 then State(WritePart(d, pc.dest, leg, Partial), next)
    else if pc.done % 4 == 1 then
      if d.manifest.encoded.Some? && d.manifest.encoded.value.Of(leg) in d.archives
      then State(WritePart(d, pc.dest, leg, d.archives[d.manifest.encoded.value.Of(leg)]), next)
      else State(d, Idle)
    else if pc.done % 4 == 2 then State(Sync(d, Part(pc.dest, leg)), next)
    else if key in d.part then State(Rename(d, pc.dest, leg), next)
    else State(d, Idle)
  }

  function ProceedStep(recorded: set<Leg>, s: State, replayDone: bool): State
  {
    var d := s.disk;
    match s.pc
    case Idle => s
    case Encoding(_, _, _) => EncodeStep(recorded, d, s.pc)
    case Publishing(_, _) => PublishStep(d, s.pc)
    case Stamping(dest) => State(d.(manifest := d.manifest.(promoted := Some(dest))), Verifying)
    case Verifying => if Verified(d) && replayDone then State(d, Renaming) else State(d, Idle)
    case Renaming => State(d.(session := Retired), Removing)
    case Removing => State(d.(session := Gone, pcm := {}, archives := map[]), Idle)
    case Discarding(done) =>
      if done == 0 then State(d.(pcm := d.pcm - {System}), Discarding(1))
      else if done == 1 then State(d.(pcm := d.pcm - {Mic}), Idle)
      else State(d, Idle)
  }

  /** Whatever was not synced is torn. */
  function PowerCutStep(d: Disk): Disk
  {
    d.(archives := map n | n in d.archives :: if Archive(n) in d.unsynced then Partial else d.archives[n],
       part := map k | k in d.part :: if Part(k.0, k.1) in d.unsynced then Partial else d.part[k],
       media := map k | k in d.media :: if Final(k.0, k.1) in d.unsynced then Partial else d.media[k],
       unsynced := {})
  }

  /** An I/O error ends the operation; an unfinished generation is removed. */
  function FailStep(s: State): State
  {
    if s.pc.Encoding? && s.pc.done < 6 && s.pc.target.system.Generation?
    then State(s.disk.(archives := s.disk.archives - {s.pc.target.system, s.pc.target.mic}), Idle)
    else State(s.disk, Idle)
  }

  function Exec(recorded: set<Leg>, s: State, step: Step): State
  {
    var d := s.disk;
    match step
    case Begin(op) => if s.pc.Idle? then BeginOp(recorded, d, op) else s
    case Proceed(replayDone) => ProceedStep(recorded, s, replayDone)
    case Fail => FailStep(s)
    case Crash => State(d, Idle)
    case PowerCut => State(PowerCutStep(d), Idle)
    case LoseMedia(dest, leg) => if s.pc.Idle? && d.session == Present then s.(disk := d.(media := d.media - {(dest, leg)})) else s
    case Erode(name, leg) => if d.session == Retired then s.(disk := d.(pcm := d.pcm - {leg}, archives := d.archives - {name})) else s
    case SweepRetired =>
      if s.pc.Idle? && d.session == Retired then State(d.(session := Gone, pcm := {}, archives := map[]), Idle) else s
  }

  /** A finalized session. The PCM of every recorded leg is on disk; that of a
      leg that was not recorded may be there, empty, or be missing. */
  function Start(pcm: set<Leg>, media: Media): State
  {
    State(Disk(Present, Manifest(None, None, None), pcm, map[], 0, map[], media, {}), Idle)
  }

  // ---------------------------------------------------------------- invariant

  ghost predicate MediaOk(media: Media)
  {
    forall k :: k in media ==> media[k] == Whole(k.1)
  }

  /** Every final name holds a complete track that is on the platter. */
  ghost predicate Finished(d: Disk)
  {
    MediaOk(d.media) && forall f :: f in d.unsynced ==> !f.Final?
  }

  ghost predicate NamesOk(d: Disk)
  {
    && (forall n :: n in d.archives && n.Generation? ==> n.id < d.generations)
    && (d.session == Present && d.manifest.encoded.Some? ==>
          SourcesWhole(d) && Shaped(d.manifest.encoded.value) && Durable(d, d.manifest.encoded.value))
  }

  ghost predicate Durable(d: Disk, e: Encoded)
  {
    Archive(e.system) !in d.unsynced && Archive(e.mic) !in d.unsynced
  }

  /** The two archives of one encode, named for their legs. */
  ghost predicate Shaped(e: Encoded)
  {
    e.system.leg == System && e.mic.leg == Mic
  }

  ghost predicate Fresh(d: Disk, target: Encoded)
  {
    && Shaped(target)
    && (target.system.Generation? ==> target.system.id < d.generations)
    && (target.mic.Generation? ==> target.mic.id < d.generations)
    && (d.manifest.encoded.Some? ==>
          target.system != d.manifest.encoded.value.system && target.mic != d.manifest.encoded.value.mic)
  }

  ghost predicate PcOk(recorded: set<Leg>, s: State)
  {
    var d := s.disk;
    match s.pc
    case Idle => true
    case Encoding(target, done, _) =>
      && d.session == Present && recorded <= d.pcm && Fresh(d, target) && done <= 6
      && (done >= 2 ==> IsWhole(d.archives, target.system, System))
      && (done >= 3 ==> Archive(target.system) !in d.unsynced)
      && (done >= 5 ==> IsWhole(d.archives, target.mic, Mic))
      && (done >= 6 ==> Archive(target.mic) !in d.unsynced)
    case Publishing(dest, done) =>
      && d.session == Present && d.manifest.encoded.Some? && d.manifest.claim == Some(dest) && done <= 8
      && (2 <= done <= 3 ==> IsWhole(d.part, (dest, System), System))
      && (done == 3 ==> Part(dest, System) !in d.unsynced)
      && (6 <= done <= 7 ==> IsWhole(d.part, (dest, Mic), Mic))
      && (done == 7 ==> Part(dest, Mic) !in d.unsynced)
      && (done >= 4 ==> IsWhole(d.media, (dest, System), System))
      && (done >= 8 ==> IsWhole(d.media, (dest, Mic), Mic))
    case Stamping(dest) => d.session == Present && d.manifest.encoded.Some? && d.manifest.claim == Some(dest) && MediaWhole(d, dest)
    case Verifying => d.session == Present
    case Renaming => d.session == Present && Verified(d)
    case Removing => d.session == Retired
    case Discarding(_) => d.session == Present && d.manifest.encoded.Some?
  }

  ghost predicate Inv(recorded: set<Leg>, s: State)
  {
    var d := s.disk;
    && recorded <= LEGS && Finished(d) && NamesOk(d) && PcOk(recorded, s)
    && (d.manifest.encoded.None? ==> recorded <= d.pcm && d.manifest.promoted.None?)
    && (d.session != Present ==> Verified(d))
  }

  lemma {:induction false} StartOk(recorded: set<Leg>, pcm: set<Leg>, media: Media)
    requires recorded <= pcm <= LEGS && MediaOk(media)
    ensures Inv(recorded, Start(pcm, media))
  {
  }

  lemma {:induction false} BeginKeeps(recorded: set<Leg>, s: State, op: Op)
    requires Inv(recorded, s) && s.pc.Idle?
    ensures Inv(recorded, BeginOp(recorded, s.disk, op))
  {
  }

  lemma {:induction false} EncodeKeeps(recorded: set<Leg>, s: State)
    requires Inv(recorded, s) && s.pc.Encoding?
    ensures Inv(recorded, EncodeStep(recorded, s.disk, s.pc))
  {
    if s.pc.done < 6 { ArchiveStepKeeps(recorded, s); }
  }

  /** Writing a name the manifest does not select disturbs nothing it does. */
  lemma {:induction false} WriteArchiveKeeps(d: Disk, name: Name, blob: Blob)
    requires NamesOk(d) && Finished(d) && (name.Generation? ==> name.id < d.generations)
    requires d.session == Present && d.manifest.encoded.Some? ==>
               name != d.manifest.encoded.value.system && name != d.manifest.encoded.value.mic
    ensures NamesOk(WriteArchive(d, name, blob)) && Finished(WriteArchive(d, name, blob))
  {
  }

  lemma {:induction false} SyncKeeps(d: Disk, file: Open)
    requires NamesOk(d) && Finished(d)
    ensures NamesOk(Sync(d, file)) && Finished(Sync(d, file))
  {
  }

  lemma {:induction false} ArchiveStepKeeps(recorded: set<Leg>, s: State)
    requires Inv(recorded, s) && s.pc.Encoding? && s.pc.done < 6
    ensures Inv(recorded, EncodeStep(recorded, s.disk, s.pc))
  {
    var d, t := s.disk, s.pc.target;
    var leg := if s.pc.done < 3 then System else Mic;
    assert t.system != t.mic;
    assert d.manifest.encoded.Some? ==>
      t.Of(leg) != d.manifest.encoded.value.system && t.Of(leg) != d.manifest.encoded.value.mic;
    WriteArchiveKeeps(d, t.Of(leg), if s.pc.done % 3 == 0 then Partial else Whole(leg));
    SyncKeeps(d, Archive(t.Of(leg)));
    hide NamesOk, Finished, SourcesWhole, MediaWhole;
  }

  lemma {:induction false} PublishKeeps(recorded: set<Leg>, s: State)
    requires Inv(recorded, s) && s.pc.Publishing?
    ensures Inv(recorded, PublishStep(s.disk, s.pc))
  {
    if s.pc.done < 4 { TrackKeeps(recorded, s, System); } else if s.pc.done < 8 { TrackKeeps(recorded, s, Mic); }
  }

  lemma {:induction false} TrackKeeps(recorded: set<Leg>, s: State, leg: Leg)
    requires Inv(recorded, s) && s.pc.Publishing? && s.pc.done < 8 && leg == if s.pc.done < 4 then System else Mic
    ensures Inv(recorded, PublishStep(s.disk, s.pc))
  {
    if s.pc.done % 4 < 2 {
      PartKeeps(recorded, s, leg);
    } else {
      FinalKeeps(recorded, s, leg);
    }
  }

  lemma {:induction false} PartKeeps(recorded: set<Leg>, s: State, leg: Leg)
    requires Inv(recorded, s) && s.pc.Publishing? && s.pc.done < 8 && leg == if s.pc.done < 4 then System else Mic
    requires s.pc.done % 4 < 2
    ensures Inv(recorded, PublishStep(s.disk, s.pc))
  {
    var d, e := s.disk, s.disk.manifest.encoded.value;
    assert IsWhole(d.archives, e.Of(leg), leg);
    hide SourcesWhole, Verified, MediaOk;
  }

  lemma {:induction false} FinalKeeps(recorded: set<Leg>, s: State, leg: Leg)
    requires Inv(recorded, s) && s.pc.Publishing? && s.pc.done < 8 && leg == if s.pc.done < 4 then System else Mic
    requires s.pc.done % 4 >= 2
    ensures Inv(recorded, PublishStep(s.disk, s.pc))
  {
    hide BeginPublish, BeginPromote;
  }

  lemma {:induction false} ProceedKeeps(recorded: set<Leg>, s: State, replayDone: bool)
    requires Inv(recorded, s)
    ensures Inv(recorded, ProceedStep(recorded, s, replayDone))
  {
    if s.pc.Encoding? { EncodeKeeps(recorded, s); }
    else if s.pc.Publishing? { PublishKeeps(recorded, s); }
  }

  lemma {:induction false} FailKeeps(recorded: set<Leg>, s: State)
    requires Inv(recorded, s)
    ensures Inv(recorded, FailStep(s))
  {
  }

  /** What the manifest selects and what wears a final name was synced first. */
  lemma {:induction false} PowerCutKeeps(recorded: set<Leg>, s: State)
    requires Inv(recorded, s)
    ensures Inv(recorded, State(PowerCutStep(s.disk), Idle))
  {
  }

  lemma {:induction false} StepKeeps(recorded: set<Leg>, s: State, step: Step)
    requires Inv(recorded, s)
    ensures Inv(recorded, Exec(recorded, s, step))
  {
    match step
    case Begin(op) => if s.pc.Idle? { BeginKeeps(recorded, s, op); }
    case Proceed(replayDone) => ProceedKeeps(recorded, s, replayDone);
    case Fail => FailKeeps(recorded, s);
    case PowerCut => PowerCutKeeps(recorded, s);
    case _ =>
  }

  // ---------------------------------------------------------------- every run

  ghost function Run(recorded: set<Leg>, pcm: set<Leg>, media: Media, steps: seq<Step>): (s: State)
    requires recorded <= pcm <= LEGS && MediaOk(media)
    ensures Inv(recorded, s)
  {
    if steps == [] then
      StartOk(recorded, pcm, media);
      Start(pcm, media)
    else
      var before := Run(recorded, pcm, media, steps[..|steps| - 1]);
      StepKeeps(recorded, before, steps[|steps| - 1]);
      Exec(recorded, before, steps[|steps| - 1])
  }

  /** A complete copy of the leg: its PCM, the archive the manifest selects, or
      the published track. */
  ghost predicate HasCopy(d: Disk, leg: Leg)
  {
    || (d.session == Present && leg in d.pcm)
    || (d.session == Present && d.manifest.encoded.Some? && IsWhole(d.archives, d.manifest.encoded.value.Of(leg), leg))
    || (d.manifest.promoted.Some? && IsWhole(d.media, (d.manifest.promoted.value, leg), leg))
  }

  /** Whatever crashes, fails or is repeated, every recorded leg keeps a complete
      copy and no incomplete file wears a final name. */
  lemma {:induction false} NothingIsLost(recorded: set<Leg>, pcm: set<Leg>, media: Media, steps: seq<Step>)
    requires recorded <= pcm <= LEGS && MediaOk(media)
    ensures var d := Run(recorded, pcm, media, steps).disk;
            && (forall leg :: leg in recorded ==> HasCopy(d, leg))
            && (forall k :: k in d.media ==> d.media[k] == Whole(k.1))
            && (d.session != Present ==>
                  d.manifest.promoted.Some? && forall leg :: IsWhole(d.media, (d.manifest.promoted.value, leg), leg))
  {
    var s := Run(recorded, pcm, media, steps);
    hide Run, Inv, HasCopy, IsWhole;
    InvKeepsCopies(recorded, s);
  }

  lemma {:induction false} InvKeepsCopies(recorded: set<Leg>, s: State)
    requires Inv(recorded, s)
    ensures forall leg :: leg in recorded ==> HasCopy(s.disk, leg)
    ensures forall k :: k in s.disk.media ==> s.disk.media[k] == Whole(k.1)
    ensures s.disk.session != Present ==>
              s.disk.manifest.promoted.Some? && forall leg :: IsWhole(s.disk.media, (s.disk.manifest.promoted.value, leg), leg)
  {
    forall leg | s.disk.session != Present ensures IsWhole(s.disk.media, (s.disk.manifest.promoted.value, leg), leg) {
      assert leg == System || leg == Mic;
    }
    forall leg | leg in recorded ensures HasCopy(s.disk, leg) {
      assert leg == System || leg == Mic;
    }
  }

  // ---------------------------------------------------------------- running it again converges

  function Rank(pc: Pc): nat
  {
    match pc
    case Idle => 0
    case Removing => 1
    case Renaming => 2
    case Verifying => 3
    case Stamping(_) => 4
    case Publishing(_, done) => 5 + if done < 8 then 8 - done else 0
    case Encoding(_, done, _) => 14 + if done < 6 then 6 - done else 0
    case Discarding(done) => 1 + if done < 1 then 1 else 0
  }

  /** Take steps, none of which fails, until the operation ends. */
  function Drive(recorded: set<Leg>, s: State, replayDone: bool): State
    decreases Rank(s.pc)
  {
    if s.pc.Idle? then s else Drive(recorded, ProceedStep(recorded, s, replayDone), replayDone)
  }

  /** On the way to retirement. */
  ghost predicate Promoting(s: State)
  {
    match s.pc
    case Encoding(_, _, promoting) => promoting && s.disk.manifest.claim.Some?
    case Verifying => Verified(s.disk)
    case Publishing(_, _) => true
    case Stamping(_) => true
    case Renaming => true
    case Removing => true
    case _ => false
  }

  /** Where this promotion leaves the tracks: under the claim, unless they are
      already stamped. */
  ghost function Stamp(s: State): Option<Dest>
  {
    if s.pc.Verifying? || s.pc.Renaming? || s.pc.Removing? then s.disk.manifest.promoted else s.disk.manifest.claim
  }

  /** A promotion that nothing disturbs publishes and stamps both tracks whole. It
      removes the session exactly when the transcription guard lets it through. */
  lemma {:induction false} DriveConverges(recorded: set<Leg>, s: State, replayDone: bool)
    requires Inv(recorded, s) && Promoting(s)
    ensures var r := Drive(recorded, s, replayDone);
            && Inv(recorded, r) && r.pc.Idle? && Verified(r.disk)
            && r.disk.session == (if replayDone || s.pc.Renaming? || s.pc.Removing? then Gone else Present)
            && r.disk.manifest.claim == s.disk.manifest.claim && r.disk.manifest.promoted == Stamp(s)
    decreases Rank(s.pc)
  {
    var next := ProceedStep(recorded, s, replayDone);
    ProceedKeeps(recorded, s, replayDone);
    if !s.pc.Removing? && (!s.pc.Verifying? || replayDone) {
      StaysPromoting(recorded, s, replayDone);
      DriveConverges(recorded, next, replayDone);
    }
  }

  lemma {:induction false} StaysPromoting(recorded: set<Leg>, s: State, replayDone: bool)
    requires Inv(recorded, s) && Promoting(s) && !s.pc.Removing? && (!s.pc.Verifying? || replayDone)
    ensures Promoting(ProceedStep(recorded, s, replayDone))
    ensures ProceedStep(recorded, s, replayDone).pc.Renaming? ==> replayDone
    ensures ProceedStep(recorded, s, replayDone).pc.Removing? ==> s.pc.Renaming?
    ensures Stamp(ProceedStep(recorded, s, replayDone)) == Stamp(s)
    ensures ProceedStep(recorded, s, replayDone).disk.manifest.claim == s.disk.manifest.claim
  {
    ProceedKeeps(recorded, s, replayDone);
  }

  /** What the daemon does at startup: sweep what was put aside, then promote. */
  function Resume(recorded: set<Leg>, s: State, replayDone: bool): State
  {
    Drive(recorded, Exec(recorded, Exec(recorded, s, SweepRetired), Begin(Promote)), replayDone)
  }

  /** There is an archive to publish, or nothing keeps one from being made: no
      `mic.opus` stands where the microphone has no PCM. */
  predicate Archivable(d: Disk)
  {
    d.manifest.encoded.Some? || (System in d.pcm && (Mic in d.pcm || Legacy(Mic) !in d.archives))
  }

  ghost predicate Published(d: Disk)
  {
    d.manifest.promoted.Some? && MediaWhole(d, d.manifest.promoted.value)
  }

  /** What one undisturbed restart makes of a session at rest. */
  ghost predicate Restarted(before: Disk, after: Disk, replayDone: bool)
  {
    if before.session != Present then after.session == Gone && Published(after) && after.manifest == before.manifest
    else if before.manifest.claim.None? then after == before
    else
      && (Published(after) <==> Archivable(before))
      && (after.session == Gone <==> Archivable(before) && replayDone)
      && (after.session != Gone ==> after.session == Present)
      && (!Archivable(before) ==> after == before)
      && (Archivable(before) ==> after.manifest.promoted == if Verified(before) then before.manifest.promoted else before.manifest.claim)
  }

  /** After a crash, a power cut or a failure at any point, one undisturbed restart
      publishes a claimed session exactly when it is archivable, and removes it
      exactly when its transcription is done too. One already put aside is removed
      whatever else holds. */
  lemma {:induction false} ResumeConverges(
      recorded: set<Leg>, pcm: set<Leg>, media: Media, steps: seq<Step>, end: Step, replayDone: bool)
    requires recorded <= pcm <= LEGS && MediaOk(media) && (end.Crash? || end.PowerCut? || end.Fail?)
    ensures var s := Exec(recorded, Run(recorded, pcm, media, steps), end);
            Restarted(s.disk, Resume(recorded, s, replayDone).disk, replayDone)
  {
    var before := Run(recorded, pcm, media, steps);
    StepKeeps(recorded, before, end);
    hide Run;
    RestartConverges(recorded, Exec(recorded, before, end), replayDone);
  }

  lemma {:induction false} RestartConverges(recorded: set<Leg>, s: State, replayDone: bool)
    requires Inv(recorded, s) && s.pc.Idle?
    ensures Restarted(s.disk, Resume(recorded, s, replayDone).disk, replayDone)
  {
    if s.disk.session == Present && s.disk.manifest.claim.Some? {
      BeginKeeps(recorded, s, Promote);
      PromotesClaimed(recorded, s.disk);
      if Archivable(s.disk) {
        hide Inv, BeginPromote, Drive, Archivable;
        DriveConverges(recorded, BeginOp(recorded, s.disk, Promote), replayDone);
      }
    }
  }

  lemma {:induction false} PromotesClaimed(recorded: set<Leg>, d: Disk)
    requires Inv(recorded, State(d, Idle)) && d.session == Present && d.manifest.claim.Some?
    ensures var s := BeginOp(recorded, d, Promote);
            if Archivable(d) then Promoting(s) && !s.pc.Renaming? && !s.pc.Removing? else s == State(d, Idle)
  {
  }

  // ---------------------------------------------------------------- when it never does

  ghost predicate Blocked(s: State)
  {
    s.pc.Idle? && s.disk.session == Present && !Archivable(s.disk)
  }

  lemma {:induction false} BlockedStays(recorded: set<Leg>, s: State, step: Step)
    requires Inv(recorded, s) && Blocked(s)
    ensures Blocked(Exec(recorded, s, step))
  {
  }

  /** Once a session is blocked no later promotion, encode or restart helps: it
      stays where it is, unpublished. */
  lemma {:induction false} BlockedForever(recorded: set<Leg>, pcm: set<Leg>, media: Media, steps: seq<Step>, more: seq<Step>)
    requires recorded <= pcm <= LEGS && MediaOk(media)
    requires Blocked(Run(recorded, pcm, media, steps))
    ensures Blocked(Run(recorded, pcm, media, steps + more))
    ensures !Published(Run(recorded, pcm, media, steps + more).disk)
    decreases |more|
  {
    hide Run, Exec, Blocked, Inv, Published;
    BlockedUnpublished(recorded, Run(recorded, pcm, media, steps));
    if more == [] {
      assert steps + more == steps;
    } else {
      var init, last := more[..|more| - 1], more[|more| - 1];
      BlockedForever(recorded, pcm, media, steps, init);
      assert steps + more == (steps + init) + [last];
      RunExtends(recorded, pcm, media, steps + init, last);
      BlockedStays(recorded, Run(recorded, pcm, media, steps + init), last);
      BlockedUnpublished(recorded, Run(recorded, pcm, media, steps + more));
    }
  }

  lemma {:induction false} BlockedUnpublished(recorded: set<Leg>, s: State)
    requires Inv(recorded, s) && Blocked(s)
    ensures !Published(s.disk)
  {
  }

  lemma {:induction false} RunExtends(recorded: set<Leg>, pcm: set<Leg>, media: Media, steps: seq<Step>, step: Step)
    requires recorded <= pcm <= LEGS && MediaOk(media)
    ensures Run(recorded, pcm, media, steps + [step]) == Exec(recorded, Run(recorded, pcm, media, steps), step)
  {
    assert (steps + [step])[..|steps + [step]| - 1] == steps;
  }

  /** Claim, promote, and crash just after `mic.opus` is created. */
  const CUT_SHORT: seq<Step> :=
    [Begin(ClaimAs(0)), Begin(Promote), Proceed(true), Proceed(true), Proceed(true), Proceed(true), Crash]

  /** A session whose unrecorded microphone left no PCM can be blocked by a crash. */
  lemma {:induction false} CrashCanBlock(recorded: set<Leg>, media: Media)
    requires recorded <= {System} && MediaOk(media)
    ensures Blocked(Run(recorded, {System}, media, CUT_SHORT))
  {
    hide Run, Exec;
    var steps := CUT_SHORT;
    CutShort(recorded, media, steps, 7);
    assert steps[..7] == steps;
  }

  lemma {:induction false} CutShort(recorded: set<Leg>, media: Media, steps: seq<Step>, k: nat)
    requires recorded <= {System} && MediaOk(media) && IsCutShort(steps) && k <= |steps| == 7
    ensures Blocking(Run(recorded, {System}, media, steps[..k]), k)
    decreases k
  {
    hide IsCutShort, Exec, Inv, MediaOk;
    if k == 0 {
      assert steps[..0] == [];
    } else {
      hide Run, Blocking;
      CutShort(recorded, media, steps, k - 1);
      assert steps[..k] == steps[..k - 1] + [steps[k - 1]];
      RunExtends(recorded, {System}, media, steps[..k - 1], steps[k - 1]);
      BlockingStep(recorded, Run(recorded, {System}, media, steps[..k - 1]), steps, k - 1);
    }
  }

  ghost predicate IsCutShort(steps: seq<Step>) { steps == CUT_SHORT }

  /** Where that run stands after `k` steps. */
  ghost predicate Blocking(s: State, k: nat)
  {
    var d := s.disk;
    && d.session == Present && d.pcm == {System} && d.manifest.encoded.None? && d.manifest.promoted.None?
    && (k >= 1 ==> d.manifest.claim.Some?)
    && (k <= 2 ==> d.archives == map[])
    && (k >= 6 ==> Legacy(Mic) in d.archives)
    && s.pc == if 2 <= k <= 6 then Encoding(Encoded(Legacy(System), Legacy(Mic)), k - 2, true) else Idle
  }

  lemma {:induction false} BlockingStep(recorded: set<Leg>, s: State, steps: seq<Step>, k: nat)
    requires recorded <= {System} && IsCutShort(steps) && k < |steps| && Blocking(s, k)
    ensures Blocking(Exec(recorded, s, steps[k]), k + 1)
  {
  }

  /** As long as nothing is selected, the PCM is what it was. */
  lemma {:induction false} PcmStays(recorded: set<Leg>, pcm: set<Leg>, media: Media, steps: seq<Step>)
    requires recorded <= pcm <= LEGS && MediaOk(media)
    ensures var d := Run(recorded, pcm, media, steps).disk; d.manifest.encoded.None? ==> d.pcm == pcm
  {
    if steps != [] {
      var init, last := steps[..|steps| - 1], steps[|steps| - 1];
      PcmStays(recorded, pcm, media, init);
      StepKeeps(recorded, Run(recorded, pcm, media, init), last);
      PcmStep(recorded, Run(recorded, pcm, media, init), last);
    }
  }

  lemma {:induction false} PcmStep(recorded: set<Leg>, s: State, step: Step)
    requires Inv(recorded, s)
    ensures var d := Exec(recorded, s, step).disk;
            d.manifest.encoded.None? ==> s.disk.manifest.encoded.None? && d.pcm == s.disk.pcm
  {
  }

  /** The recorder creates both PCM files, so a session it wrote is never blocked. */
  lemma {:induction false} BothFilesNeverBlock(recorded: set<Leg>, media: Media, steps: seq<Step>)
    requires recorded <= LEGS && MediaOk(media)
    ensures Archivable(Run(recorded, LEGS, media, steps).disk)
  {
    PcmStays(recorded, LEGS, media, steps);
    hide Run;
  }

  /** Some run blocks a session exactly when one of its PCM files is missing from
      the start. */
  lemma {:induction false} BlockableIff(recorded: set<Leg>, pcm: set<Leg>, media: Media)
    requires recorded <= pcm <= LEGS && MediaOk(media)
    ensures (exists steps :: Blocks(recorded, pcm, media, steps)) <==> pcm != LEGS
  {
    if pcm == LEGS {
      forall steps ensures !Blocks(recorded, pcm, media, steps) { BothFilesNeverBlock(recorded, media, steps); }
    } else if System in pcm {
      assert pcm == {System};
      CrashCanBlock(recorded, media);
      assert Blocks(recorded, pcm, media, CUT_SHORT);
    } else {
      assert Blocks(recorded, pcm, media, []);
    }
  }

  ghost predicate Blocks(recorded: set<Leg>, pcm: set<Leg>, media: Media, steps: seq<Step>)
    requires recorded <= pcm <= LEGS && MediaOk(media)
  {
    Blocked(Run(recorded, pcm, media, steps))
  }

  // ---------------------------------------------------------------- where it goes

  /** The last destination asked for while the session was there to be claimed. */
  ghost function LastClaim(recorded: set<Leg>, pcm: set<Leg>, media: Media, steps: seq<Step>): Option<Dest>
    requires recorded <= pcm <= LEGS && MediaOk(media)
  {
    if steps == [] then None
    else
      var before, last := steps[..|steps| - 1], steps[|steps| - 1];
      var s := Run(recorded, pcm, media, before);
      if last.Begin? && last.op.ClaimAs? && s.pc.Idle? && s.disk.session == Present then Some(last.op.dest)
      else LastClaim(recorded, pcm, media, before)
  }

  lemma {:induction false} ClaimIsLast(recorded: set<Leg>, pcm: set<Leg>, media: Media, steps: seq<Step>)
    requires recorded <= pcm <= LEGS && MediaOk(media)
    ensures Run(recorded, pcm, media, steps).disk.manifest.claim == LastClaim(recorded, pcm, media, steps)
  {
    if steps != [] {
      var before, last := steps[..|steps| - 1], steps[|steps| - 1];
      ClaimIsLast(recorded, pcm, media, before);
      ClaimStep(recorded, Run(recorded, pcm, media, before), last);
      hide Exec, Inv;
    }
  }

  lemma {:induction false} ClaimStep(recorded: set<Leg>, s: State, step: Step)
    ensures Exec(recorded, s, step).disk.manifest.claim
            == if step.Begin? && step.op.ClaimAs? && s.pc.Idle? && s.disk.session == Present then Some(step.op.dest)
               else s.disk.manifest.claim
  {
  }

  /** What a restart publishes stands under the last destination claimed, exactly
      unless the session was already published whole under another one. */
  lemma {:induction false} PublishedWhereClaimed(
      recorded: set<Leg>, pcm: set<Leg>, media: Media, steps: seq<Step>, end: Step, replayDone: bool)
    requires recorded <= pcm <= LEGS && MediaOk(media) && (end.Crash? || end.PowerCut? || end.Fail?)
    ensures var s := Exec(recorded, Run(recorded, pcm, media, steps), end);
            var r, claim := Resume(recorded, s, replayDone).disk, LastClaim(recorded, pcm, media, steps);
            s.disk.session == Present && claim.Some? && Archivable(s.disk) ==>
              && Published(r)
              && (r.manifest.promoted == claim <==>
                    !(s.disk.manifest.promoted.Some? && s.disk.manifest.promoted != claim && Published(s.disk)))
  {
    ResumeConverges(recorded, pcm, media, steps, end, replayDone);
    ClaimIsLast(recorded, pcm, media, steps);
    ClaimStep(recorded, Run(recorded, pcm, media, steps), end);
    StepKeeps(recorded, Run(recorded, pcm, media, steps), end);
    hide Run, Exec, Resume, LastClaim, Finished, NamesOk, PcOk, MediaWhole;
  }

  /** A promotion driven to its end is a run. */
  lemma {:induction false} DriveRuns(recorded: set<Leg>, pcm: set<Leg>, media: Media, steps: seq<Step>, replayDone: bool)
    returns (more: seq<Step>)
    requires recorded <= pcm <= LEGS && MediaOk(media)
    ensures Run(recorded, pcm, media, steps + more) == Drive(recorded, Run(recorded, pcm, media, steps), replayDone)
    decreases Rank(Run(recorded, pcm, media, steps).pc)
  {
    hide Run, ProceedStep, Inv, Rank;
    var s := Run(recorded, pcm, media, steps);
    more := [];
    if s.pc.Idle? {
      assert steps + more == steps;
    } else {
      RunExtends(recorded, pcm, media, steps, Proceed(replayDone));
      RankFalls(recorded, s, replayDone);
      var rest := DriveRuns(recorded, pcm, media, steps + [Proceed(replayDone)], replayDone);
      more := [Proceed(replayDone)] + rest;
      assert steps + more == steps + [Proceed(replayDone)] + rest;
    }
  }

  lemma {:induction false} RankFalls(recorded: set<Leg>, s: State, replayDone: bool)
    requires !s.pc.Idle?
    ensures Rank(ProceedStep(recorded, s, replayDone).pc) < Rank(s.pc)
  {
    hide Verified, SourcesWhole, WriteArchive, WritePart;
  }

  /** A claim that comes after publication is recorded and never honoured. */
  lemma {:induction false} LateClaimIsIgnored(recorded: set<Leg>, media: Media, first: Dest, second: Dest, replayDone: bool)
    returns (steps: seq<Step>)
    requires recorded <= LEGS && MediaOk(media)
    ensures var s := Run(recorded, LEGS, media, steps);
            && s.pc.Idle? && s.disk.manifest.claim == Some(second)
            && Resume(recorded, s, replayDone).disk.manifest.promoted == Some(first)
  {
    var start: seq<Step> := [];
    var claimed := start + [Begin(ClaimAs(first))];
    RunExtends(recorded, LEGS, media, start, Begin(ClaimAs(first)));
    RunExtends(recorded, LEGS, media, claimed, Begin(Promote));
    var begun := claimed + [Begin(Promote)];
    var s := Run(recorded, LEGS, media, claimed);
    assert s == State(Start(LEGS, media).disk.(manifest := Manifest(Some(first), None, None)), Idle);
    PromotesClaimed(recorded, s.disk);
    var b := Run(recorded, LEGS, media, begun);
    assert b == BeginOp(recorded, s.disk, Promote) && Stamp(b) == Some(first);
    DriveConverges(recorded, b, false);
    hide Run, BeginOp, Inv, Promoting, Drive;
    var more := DriveRuns(recorded, LEGS, media, begun, false);
    var done := Run(recorded, LEGS, media, begun + more);
    steps := begun + more + [Begin(ClaimAs(second))];
    RunExtends(recorded, LEGS, media, begun + more, Begin(ClaimAs(second)));
    LateClaim(recorded, done, second, replayDone);
  }

  lemma {:induction false} LateClaim(recorded: set<Leg>, s: State, dest: Dest, replayDone: bool)
    requires Inv(recorded, s) && s.pc.Idle? && s.disk.session == Present && Verified(s.disk)
    ensures var t := Exec(recorded, s, Begin(ClaimAs(dest)));
            && t.pc.Idle? && t.disk.manifest.claim == Some(dest)
            && Resume(recorded, t, replayDone).disk.manifest.promoted == s.disk.manifest.promoted
  {
    var t := Exec(recorded, s, Begin(ClaimAs(dest)));
    BeginKeeps(recorded, s, ClaimAs(dest));
    RestartConverges(recorded, t, replayDone);
    hide Resume, Inv;
  }

  // ---------------------------------------------------------------- the other operations

  /** Raw audio is discarded whole exactly when both selected archives are whole;
      nothing else is touched. */
  lemma {:induction false} DiscardFrees(recorded: set<Leg>, d: Disk, replayDone: bool)
    requires d.session == Present && d.pcm <= LEGS
    ensures var r := Drive(recorded, BeginOp(recorded, d, DiscardPcm), replayDone);
            r == State(if SourcesWhole(d) then d.(pcm := {}) else d, Idle)
  {
    if SourcesWhole(d) {
      assert d.pcm - {System} - {Mic} == {};
      var a := State(d, Discarding(0));
      var b := State(d.(pcm := d.pcm - {System}), Discarding(1));
      var c := State(d.(pcm := d.pcm - {System} - {Mic}), Idle);
      assert ProceedStep(recorded, a, replayDone) == b && ProceedStep(recorded, b, replayDone) == c;
      hide ProceedStep;
      assert Drive(recorded, b, replayDone) == Drive(recorded, c, replayDone) == c;
    }
  }

  /** Encoding again selects a new, whole pair under names the old manifest did not
      use, exactly when the inputs are there, and leaves the rest alone. */
  lemma {:induction false} EncodeSelects(recorded: set<Leg>, s: State, replayDone: bool)
    requires Inv(recorded, s) && s.pc.Idle? && s.disk.session == Present
    ensures var r := Drive(recorded, BeginOp(recorded, s.disk, EncodeAgain), replayDone);
            if InputsReady(recorded, s.disk) then
              && r.pc.Idle? && r.disk.manifest.encoded.Some? && r.disk.manifest.encoded != s.disk.manifest.encoded
              && SourcesWhole(r.disk) && r.disk.pcm == s.disk.pcm && r.disk.media == s.disk.media && r.disk.session == Present
              && r.disk.manifest.claim == s.disk.manifest.claim && r.disk.manifest.promoted == s.disk.manifest.promoted
            else r == s
  {
    if InputsReady(recorded, s.disk) {
      BeginKeeps(recorded, s, EncodeAgain);
      var b := BeginOp(recorded, s.disk, EncodeAgain);
      assert b.pc.Encoding? && !b.pc.promoting && b.pc.done == 0;
      assert s.disk.manifest.encoded.Some? ==> b.pc.target.system != s.disk.manifest.encoded.value.system;
      hide BeginOp, Drive;
      DriveEncodes(recorded, b, replayDone);
      hide Inv;
    }
  }

  lemma {:induction false} DriveEncodes(recorded: set<Leg>, s: State, replayDone: bool)
    requires Inv(recorded, s) && s.pc.Encoding? && !s.pc.promoting
    ensures var r := Drive(recorded, s, replayDone);
            && r.pc.Idle? && r.disk.manifest == s.disk.manifest.(encoded := Some(s.pc.target)) && SourcesWhole(r.disk)
            && r.disk.pcm == s.disk.pcm && r.disk.media == s.disk.media && r.disk.session == Present
    decreases Rank(s.pc)
  {
    ProceedKeeps(recorded, s, replayDone);
    RankFalls(recorded, s, replayDone);
    var next := ProceedStep(recorded, s, replayDone);
    EncodeLeaves(recorded, s, replayDone);
    if s.pc.done < 6 {
      hide ProceedStep, Inv, Rank;
      DriveEncodes(recorded, next, replayDone);
    } else {
      SelectedWhole(recorded, next);
      hide ProceedStep, Inv, Rank;
    }
  }

  lemma {:induction false} SelectedWhole(recorded: set<Leg>, s: State)
    requires Inv(recorded, s) && s.disk.session == Present && s.disk.manifest.encoded.Some?
    ensures SourcesWhole(s.disk)
  {
  }

  lemma {:induction false} EncodeLeaves(recorded: set<Leg>, s: State, replayDone: bool)
    requires Inv(recorded, s) && s.pc.Encoding? && !s.pc.promoting
    ensures var r := ProceedStep(recorded, s, replayDone);
            && r.disk.pcm == s.disk.pcm && r.disk.media == s.disk.media && r.disk.session == Present
            && (if s.pc.done < 6 then r.pc == Encoding(s.pc.target, s.pc.done + 1, false) && r.disk.manifest == s.disk.manifest
                else r.pc.Idle? && r.disk.manifest == s.disk.manifest.(encoded := Some(s.pc.target)))
  {
    hide NamesOk, Finished;
  }
}
