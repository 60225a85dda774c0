/** Diarization error: the interval sweep with moving cursors computes the
    per-millisecond definition, and the speaker mapping it reports makes the
    error least. */
module Diarization {
  import opened Outcomes
  import opened Intervals
  import opened SpeakerMapping

  /** One input segment; a missing or ill-typed field is None. */
  datatype Segment = Segment(speaker: Option<Speaker>, start: Option<int>, end: Option<int>) {
    predicate Valid()
    {
      && speaker.Some? && speaker.value != ""
      && start.Some? && end.Some? && 0 <= start.value <= end.value
    }

    function Extent(): Span
      requires Valid()
    {
      Span(start.value, end.value)
    }
  }

  // ---------------------------------------------------------------- per-millisecond definition

  /** Who speaks during a millisecond. */
  ghost function SpeakersAt(segments: seq<Segment>, t: int): set<Speaker>
  {
    set s | s in segments && s.Valid() && s.Extent().Has(t) :: s.speaker.value
  }

  /** A speaker starts or stops at p. */
  ghost predicate Boundary(segments: seq<Segment>, speaker: Speaker, p: int)
  {
    (speaker in SpeakersAt(segments, p)) != (speaker in SpeakersAt(segments, p - 1))
  }

  datatype Scene = Scene(ref: seq<Segment>, hyp: seq<Segment>, collar: nat, window: Span)

  ghost predicate InCollar(scene: Scene, t: int)
  {
    exists speaker, p :: Boundary(scene.ref, speaker, p) && p - scene.collar <= t < p + scene.collar
  }

  /** In the window and away from every reference turn boundary. */
  ghost predicate Scored(scene: Scene, t: int)
  {
    scene.window.Has(t) && !InCollar(scene, t)
  }

  /** Quantities counted millisecond by millisecond. */
  datatype Measure =
    | Time | Missed | FalseAlarm | Reference | Busiest
    | Together(pair: Pair)
    | Correct(pairs: set<Pair>)
    | Confusion(wrt: set<Pair>)

  ghost function MatchedAt(pairs: set<Pair>, r: set<Speaker>, h: set<Speaker>): set<Pair>
  {
    set p | p in pairs && p.0 in r && p.1 in h
  }

  ghost function Amount(m: Measure, r: set<Speaker>, h: set<Speaker>): int
  {
    match m
    case Time => 1
    case Missed => Max(0, |r| - |h|)
    case FalseAlarm => Max(0, |h| - |r|)
    case Reference => |r|
    case Busiest => Max(|r|, |h|)
    case Together(p) => if p.0 in r && p.1 in h then 1 else 0
    case Correct(pairs) => |MatchedAt(pairs, r, h)|
    case Confusion(pairs) => Min(|r|, |h|) - |MatchedAt(pairs, r, h)|
  }

  ghost function Value(scene: Scene, m: Measure, t: int): int
  {
    if Scored(scene, t) then Amount(m, SpeakersAt(scene.ref, t), SpeakersAt(scene.hyp, t)) else 0
  }

  /** Total of a quantity over the milliseconds from `from` to `until`. */
  ghost function Tally(scene: Scene, m: Measure, from: int, until: int): int
    decreases until - from
  {
    if until <= from then 0 else Tally(scene, m, from, until - 1) + Value(scene, m, until - 1)
  }

  ghost function Total(scene: Scene, m: Measure): int
  {
    Tally(scene, m, scene.window.start, scene.window.end)
  }

  /** Error time under a given speaker mapping. */
  ghost function ErrorTime(scene: Scene, pairs: set<Pair>): int
  {
    Total(scene, Missed) + Total(scene, FalseAlarm) + Total(scene, Confusion(pairs))
  }

  lemma {:induction false} TallySplits(scene: Scene, m: Measure, from: int, mid: int, until: int)
    requires from <= mid <= until
    ensures Tally(scene, m, from, until) == Tally(scene, m, from, mid) + Tally(scene, m, mid, until)
    decreases until - mid
  {
    if mid < until { TallySplits(scene, m, from, mid, until - 1); }
  }

  lemma {:induction false} TallyEmpty(scene: Scene, m: Measure, from: int, until: int)
    requires forall t :: from <= t < until ==> !Scored(scene, t)
    ensures Tally(scene, m, from, until) == 0
    decreases until - from
  {
    if from < until { TallyEmpty(scene, m, from, until - 1); }
  }

  lemma {:induction false} OneMore(n: int, v: int)
    ensures (n + 1) * v == n * v + v
  {
  }

  lemma {:induction false} TallyUniform(scene: Scene, m: Measure, from: int, until: int)
    requires from <= until
    requires forall t :: from <= t < until ==> Value(scene, m, t) == Value(scene, m, from)
    ensures Tally(scene, m, from, until) == (until - from) * Value(scene, m, from)
    decreases until - from
  {
    hide Value;
    if from < until {
      TallyUniform(scene, m, from, until - 1);
      assert Value(scene, m, until - 1) == Value(scene, m, from);
      OneMore(until - 1 - from, Value(scene, m, from));
    }
  }

  // ---------------------------------------------------------------- regions add up

  /** Ordered regions that cover exactly the scored milliseconds, with the same
      speakers throughout each. */
  ghost predicate Uniform(scene: Scene, x: Span)
  {
    forall t :: x.Has(t) ==>
      && Scored(scene, t)
      && SpeakersAt(scene.ref, t) == SpeakersAt(scene.ref, x.start)
      && SpeakersAt(scene.hyp, t) == SpeakersAt(scene.hyp, x.start)
  }

  ghost predicate Successive(regions: seq<Span>)
  {
    && (forall i :: 0 <= i < |regions| ==> regions[i].start < regions[i].end)
    && (forall i, j :: 0 <= i < j < |regions| ==> regions[i].end <= regions[j].start)
  }

  ghost predicate Fits(scene: Scene, regions: seq<Span>)
  {
    && Successive(regions)
    && (forall t :: Scored(scene, t) <==> Covered(regions, t))
    && (forall i :: 0 <= i < |regions| ==> Uniform(scene, regions[i]))
  }

  /** Where the first k regions end. */
  function Reach(scene: Scene, regions: seq<Span>, k: nat): int
    requires k <= |regions|
  {
    if k == 0 then scene.window.start else regions[k - 1].end
  }

  lemma {:induction false} GapUnscored(scene: Scene, regions: seq<Span>, k: nat, t: int)
    requires Successive(regions) && (forall t :: Scored(scene, t) <==> Covered(regions, t))
    requires k <= |regions| && Reach(scene, regions, k) <= t && (k < |regions| ==> t < regions[k].start)
    ensures !Scored(scene, t)
  {
    forall j | 0 <= j < |regions| ensures !regions[j].Has(t) {
      assert j < k ==> regions[j].end <= Reach(scene, regions, k);
    }
  }

  lemma {:induction false} RegionAdds(scene: Scene, m: Measure, regions: seq<Span>, k: nat)
    requires Successive(regions) && (forall t :: Scored(scene, t) <==> Covered(regions, t))
    requires k < |regions|
    requires forall t :: regions[k].Has(t) ==> Value(scene, m, t) == Value(scene, m, regions[k].start)
    ensures Tally(scene, m, scene.window.start, regions[k].end)
            == Tally(scene, m, scene.window.start, Reach(scene, regions, k))
               + (regions[k].end - regions[k].start) * Value(scene, m, regions[k].start)
  {
    var x, from := regions[k], Reach(scene, regions, k);
    assert scene.window.start <= x.start by { assert x.Has(x.start); assert Scored(scene, x.start); }
    assert scene.window.start <= from by {
      if k > 0 { assert regions[k - 1].Has(regions[k - 1].start); assert Scored(scene, regions[k - 1].start); }
    }
    forall t | from <= t < x.start ensures !Scored(scene, t) { GapUnscored(scene, regions, k, t); }
    TallyEmpty(scene, m, from, x.start);
    TallyUniform(scene, m, x.start, x.end);
    TallySplits(scene, m, scene.window.start, from, x.start);
    TallySplits(scene, m, scene.window.start, x.start, x.end);
  }

  lemma {:induction false} RegionsEnd(scene: Scene, m: Measure, regions: seq<Span>)
    requires Successive(regions) && (forall t :: Scored(scene, t) <==> Covered(regions, t))
    requires scene.window.start < scene.window.end
    ensures Tally(scene, m, scene.window.start, Reach(scene, regions, |regions|)) == Total(scene, m)
  {
    var n := |regions|;
    var from := Reach(scene, regions, n);
    if n > 0 {
      var last := regions[n - 1];
      assert last.Has(last.start) && last.Has(last.end - 1);
      assert Scored(scene, last.start) && Scored(scene, last.end - 1);
    }
    forall t | from <= t < scene.window.end ensures !Scored(scene, t) { GapUnscored(scene, regions, n, t); }
    TallyEmpty(scene, m, from, scene.window.end);
    TallySplits(scene, m, scene.window.start, from, scene.window.end);
  }
}
