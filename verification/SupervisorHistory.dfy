/** What one supervised capture session may look like from outside: taps opened
    and closed, recovery attempts, and the gaps reported to the writer. */
module SupervisorHistory {
  import opened Outcomes
  import opened CaptureWatchdog

  // ---------------------------------------------------------------- taps

  /** A tap is opened, stopped and dropped, or given to the caller still running. */
  datatype Act = Open(tap: nat) | Close(tap: nat) | HandOut(tap: nat) | CleanupUnreleased {
    predicate Ends(id: nat) { (Close? || HandOut?) && tap == id }
  }

  function Apply(held: set<nat>, a: Act): set<nat>
  {
    if a.Open? then held + {a.tap} else if a.CleanupUnreleased? then held else held - {a.tap}
  }

  /** The taps held after a history. */
  function Held(acts: seq<Act>): set<nat>
  {
    if acts == [] then {} else Apply(Held(acts[..|acts| - 1]), acts[|acts| - 1])
  }

  /** Nothing is opened while a tap is held or once cleanup is unreleased. */
  ghost predicate Orderly(acts: seq<Act>)
  {
    forall i :: 0 <= i < |acts| && acts[i].Open? ==>
      Held(acts[..i]) == {} && CleanupUnreleased !in acts[..i]
  }

  lemma {:induction false} HeldAppend(acts: seq<Act>, a: Act)
    ensures Held(acts + [a]) == Apply(Held(acts), a)
  {
    assert (acts + [a])[..|acts + [a]| - 1] == acts;
  }

  lemma {:induction false} OrderlyAppend(acts: seq<Act>, a: Act)
    requires Orderly(acts)
    requires a.Open? ==> Held(acts) == {} && CleanupUnreleased !in acts
    ensures Orderly(acts + [a])
  {
    var longer := acts + [a];
    forall i | 0 <= i < |longer| && longer[i].Open? ensures Held(longer[..i]) == {} && CleanupUnreleased !in longer[..i] {
      assert longer[..i] == acts[..i];
      assert i == |acts| ==> acts[..i] == acts;
    }
  }

  /** In an orderly history at most one tap is ever held, and between two opens
      the first tap was closed or handed out. */
  lemma {:induction false} AtMostOneTap(acts: seq<Act>)
    requires Orderly(acts)
    ensures forall i :: 0 <= i <= |acts| ==> |Held(acts[..i])| <= 1
    ensures forall i, j :: 0 <= i < j < |acts| && acts[i].Open? && acts[j].Open? ==>
              exists k :: i < k < j && acts[k].Ends(acts[i].tap)
  {
    forall i | 0 <= i <= |acts| ensures |Held(acts[..i])| <= 1 { HeldIsSmall(acts, i); }
    forall i, j | 0 <= i < j < |acts| && acts[i].Open? && acts[j].Open?
      ensures exists k :: i < k < j && acts[k].Ends(acts[i].tap)
    {
      ClosedBetween(acts, i, j);
    }
  }

  lemma {:induction false} HeldIsSmall(acts: seq<Act>, i: nat)
    requires Orderly(acts) && i <= |acts|
    ensures |Held(acts[..i])| <= 1
  {
    if i > 0 {
      HeldIsSmall(acts, i - 1);
      assert acts[..i][..i - 1] == acts[..i - 1];
      var before := Held(acts[..i - 1]);
      var a := acts[i - 1];
      if a.Open? { assert before + {a.tap} == {a.tap}; } else if !a.CleanupUnreleased? { Shrinks(before, a.tap); }
    }
  }

  lemma {:induction false} Shrinks(s: set<nat>, x: nat)
    ensures |s - {x}| <= |s|
  {
    if x in s { assert |s - {x}| == |s| - 1; } else { assert s - {x} == s; }
  }

  lemma {:induction false} ClosedBetween(acts: seq<Act>, i: nat, j: nat)
    requires Orderly(acts) && i < j < |acts| && acts[i].Open? && acts[j].Open?
    ensures exists k :: i < k < j && acts[k].Ends(acts[i].tap)
  {
    if forall k :: i < k < j ==> !acts[k].Ends(acts[i].tap) {
      StaysHeld(acts, i, j);
      assert false;
    }
  }

  lemma {:induction false} StaysHeld(acts: seq<Act>, i: nat, j: nat)
    requires i < j <= |acts| && acts[i].Open?
    requires forall k :: i < k < j ==> !acts[k].Ends(acts[i].tap)
    ensures acts[i].tap in Held(acts[..j])
  {
    assert acts[..j][..j - 1] == acts[..j - 1];
    if i + 1 < j { StaysHeld(acts, i, j - 1); }
  }

  // ---------------------------------------------------------------- attempts

  /** Why a budget was renewed: an entry in the record of sustained deliveries, or
      the user's request. */
  datatype Renewal = Delivered(entry: nat) | Asked

  datatype Try = Attempt(at: nat) | NewBudget(cause: Renewal)

  /** Attempts since the budget was last renewed. */
  function Spent(tries: seq<Try>): nat
  {
    if tries == [] || tries[|tries| - 1].NewBudget? then 0 else Spent(tries[..|tries| - 1]) + 1
  }

  function LastAttempt(tries: seq<Try>): Option<nat>
  {
    if tries == [] then None
    else if tries[|tries| - 1].Attempt? then Some(tries[|tries| - 1].at)
    else LastAttempt(tries[..|tries| - 1])
  }

  /** The budget is never exceeded and attempts keep their distance. */
  ghost predicate Patient(tries: seq<Try>, max: nat, interval: nat)
  {
    && (forall i :: 0 <= i <= |tries| ==> Spent(tries[..i]) <= max)
    && (forall i :: 0 <= i < |tries| && tries[i].Attempt? && LastAttempt(tries[..i]).Some? ==>
          LastAttempt(tries[..i]).value + interval <= tries[i].at)
  }

  lemma {:induction false} PatientAppend(tries: seq<Try>, t: Try, max: nat, interval: nat)
    requires Patient(tries, max, interval)
    requires t.Attempt? ==> Spent(tries) < max
    requires t.Attempt? && LastAttempt(tries).Some? ==> LastAttempt(tries).value + interval <= t.at
    ensures Patient(tries + [t], max, interval)
    ensures Spent(tries + [t]) == (if t.Attempt? then Spent(tries) + 1 else 0)
    ensures LastAttempt(tries + [t]) == if t.Attempt? then Some(t.at) else LastAttempt(tries)
  {
    var longer := tries + [t];
    assert longer[..|longer| - 1] == tries;
    forall i | 0 <= i <= |longer| ensures Spent(longer[..i]) <= max {
      assert i <= |tries| ==> longer[..i] == tries[..i];
      assert i == |longer| ==> longer[..i] == longer;
      assert tries[..|tries|] == tries;
    }
    forall i | 0 <= i < |longer| && longer[i].Attempt? && LastAttempt(longer[..i]).Some?
      ensures LastAttempt(longer[..i]).value + interval <= longer[i].at
    {
      assert longer[..i] == tries[..i];
      assert i == |tries| ==> tries[..i] == tries;
    }
  }

  lemma {:induction false} LastAttemptIsLatest(tries: seq<Try>, j: nat, max: nat, interval: nat)
    requires Patient(tries, max, interval) && j <= |tries|
    ensures forall i :: 0 <= i < j && tries[i].Attempt? ==>
              LastAttempt(tries[..j]).Some? && tries[i].at <= LastAttempt(tries[..j]).value
  {
    if j > 0 {
      LastAttemptIsLatest(tries, j - 1, max, interval);
      assert tries[..j][..j - 1] == tries[..j - 1];
    }
  }

  /** Any two attempts of a session, not only neighbours, are an interval apart. */
  lemma {:induction false} AttemptsFarApart(tries: seq<Try>, i: nat, j: nat, max: nat, interval: nat)
    requires Patient(tries, max, interval) && i < j < |tries| && tries[i].Attempt? && tries[j].Attempt?
    ensures tries[i].at + interval <= tries[j].at
  {
    LastAttemptIsLatest(tries, j, max, interval);
  }

  /** The deliveries that renewed the budget, in order. */
  function Earned(tries: seq<Try>): seq<nat>
  {
    if tries == [] then []
    else
      var t := tries[|tries| - 1];
      Earned(tries[..|tries| - 1]) + if t.NewBudget? && t.cause.Delivered? then [t.cause.entry] else []
  }

  /** How often the budget was renewed on request. */
  function Requests(tries: seq<Try>): nat
  {
    if tries == [] then 0
    else Requests(tries[..|tries| - 1]) + if tries[|tries| - 1] == NewBudget(Asked) then 1 else 0
  }

  /** Each names an entry of its own among the first n. */
  ghost predicate Entries(entries: seq<nat>, n: nat)
  {
    && (forall i :: 0 <= i < |entries| ==> entries[i] < n)
    && (forall i, j :: 0 <= i < j < |entries| ==> entries[i] < entries[j])
  }

  lemma {:induction false} EntriesGrow(entries: seq<nat>, n: nat)
    requires Entries(entries, n)
    ensures Entries(entries, n + 1) && Entries(entries + [n], n + 1)
  {
  }

  /** Every renewal was earned by a delivery of its own or asked for: `asked` counts
      the requests made, one of them perhaps still waiting. */
  ghost predicate RenewalsOk(tries: seq<Try>, deliveries: nat, asked: nat, waiting: bool)
  {
    Entries(Earned(tries), deliveries) && Requests(tries) + (if waiting then 1 else 0) <= asked
  }

  lemma {:induction false} RenewalsAppend(tries: seq<Try>, t: Try, deliveries: nat, asked: nat, waiting: bool)
    requires RenewalsOk(tries, deliveries, asked, waiting)
    ensures RenewalsOk(tries, deliveries, asked, false) && RenewalsOk(tries, deliveries, asked + 1, true)
    ensures t.Attempt? ==> RenewalsOk(tries + [t], deliveries, asked, waiting)
    ensures t == NewBudget(Delivered(deliveries)) ==> RenewalsOk(tries + [t], deliveries + 1, asked, waiting)
    ensures t == NewBudget(Asked) && waiting ==> RenewalsOk(tries + [t], deliveries, asked, false)
  {
    assert (tries + [t])[..|tries + [t]| - 1] == tries;
    EntriesGrow(Earned(tries), deliveries);
  }

  // ---------------------------------------------------------------- gaps

  datatype GapKind = Unwritten | Silent

  datatype GapReason =
    | TapStalledNoBuffers | TapStalledSilent | DeviceChanged | RebuildWindow | CallbackFault | InitiallyUnavailable

  function FramesIn(ns: nat, rate: nat): nat { ns * rate / 1_000_000_000 }

  datatype Gap = Gap(start: nat, end: nat, kind: GapKind, reason: GapReason) {
    function Duration(): nat { Less(end, start) }

    /** Frames of silence the writer inserts; silent gaps are already in the file. */
    function FramesToPad(rate: nat): nat
    {
      if kind == Silent then 0 else FramesIn(Duration(), rate)
    }
  }

  function LastEnd(gaps: seq<Gap>): nat
  {
    if gaps == [] then 0 else gaps[|gaps| - 1].end
  }

  /** In time order, never overlapping; a silent gap ends where its unwritten
      gap starts. */
  ghost predicate InOrder(gaps: seq<Gap>)
  {
    && (forall i :: 0 <= i < |gaps| ==> gaps[i].start <= gaps[i].end)
    && (forall i :: 0 < i < |gaps| ==> gaps[i - 1].end <= gaps[i].start)
    && (forall i :: 0 <= i < |gaps| && gaps[i].kind == Silent ==>
          i + 1 < |gaps| && gaps[i + 1].kind == Unwritten && gaps[i + 1].start == gaps[i].end)
  }

  lemma {:induction false} InOrderApart(gaps: seq<Gap>, i: nat, j: nat)
    requires InOrder(gaps) && i < j < |gaps|
    ensures gaps[i].end <= gaps[j].start
  {
    if i + 1 < j { InOrderApart(gaps, i, j - 1); }
  }

  function Padding(gaps: seq<Gap>, rate: nat): nat
  {
    if gaps == [] then 0 else Padding(gaps[..|gaps| - 1], rate) + gaps[|gaps| - 1].FramesToPad(rate)
  }

  lemma {:induction false} FramesAdd(a: nat, b: nat, rate: nat)
    ensures FramesIn(a, rate) + FramesIn(b, rate) <= FramesIn(a + b, rate)
  {
    assert (a + b) * rate == a * rate + b * rate;
    FloorsAdd(a * rate, b * rate);
  }

  lemma {:induction false} FloorsAdd(x: nat, y: nat)
    ensures x / 1_000_000_000 + y / 1_000_000_000 <= (x + y) / 1_000_000_000
  {
  }

  lemma {:induction false} FramesGrow(a: nat, b: nat, rate: nat)
    requires a <= b
    ensures FramesIn(a, rate) <= FramesIn(b, rate)
  {
    FramesAdd(a, b - a, rate);
  }

  /** A gap nothing was written for is padded to the last whole frame of its time,
      and one already written as silence not at all. */
  lemma {:induction false} PaddedToTheFrame(g: Gap, rate: nat)
    requires g.start <= g.end
    ensures g.kind == Unwritten ==>
              var frames := g.FramesToPad(rate);
              frames * 1_000_000_000 <= (g.end - g.start) * rate < (frames + 1) * 1_000_000_000
    ensures g.kind == Silent ==> g.FramesToPad(rate) == 0
  {
    WholeFrames((g.end - g.start) * rate);
  }

  lemma {:induction false} WholeFrames(x: nat)
    ensures x / 1_000_000_000 * 1_000_000_000 <= x < (x / 1_000_000_000 + 1) * 1_000_000_000
  {
  }

  /** The writer never inserts more silence than time has passed. */
  lemma {:induction false} PaddingBounded(gaps: seq<Gap>, from: nat, rate: nat)
    requires InOrder(gaps) && (gaps != [] ==> from <= gaps[0].start)
    ensures gaps != [] ==> from <= LastEnd(gaps)
    ensures Padding(gaps, rate) <= if gaps == [] then 0 else FramesIn(LastEnd(gaps) - from, rate)
  {
    PaddingUpTo(gaps, |gaps|, from, rate);
    assert gaps[..|gaps|] == gaps;
  }

  lemma {:induction false} PaddingUpTo(gaps: seq<Gap>, n: nat, from: nat, rate: nat)
    requires InOrder(gaps) && n <= |gaps| && (gaps != [] ==> from <= gaps[0].start)
    ensures n > 0 ==> from <= gaps[n - 1].end
    ensures Padding(gaps[..n], rate) <= if n == 0 then 0 else FramesIn(gaps[n - 1].end - from, rate)
  {
    hide FramesIn;
    if n > 0 {
      PaddingUpTo(gaps, n - 1, from, rate);
      assert gaps[..n][..n - 1] == gaps[..n - 1];
      var g := gaps[n - 1];
      var before := if n == 1 then 0 else gaps[n - 2].end - from;
      FramesAdd(before, g.end - g.start, rate);
      FramesGrow(before, before + (g.end - g.start), rate);
      FramesGrow(before + (g.end - g.start), g.end - from, rate);
    }
  }
}
