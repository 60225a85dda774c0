/** From elementary regions to the report: active speakers, overlaps, the best
    mapping and the totals. */
module DiarizationScore {
  import opened Intervals
  import opened SpeakerMapping
  import opened Diarization
  import opened DiarizationSweep

  // ---------------------------------------------------------------- who is active in each region

  /** Every cursor has only moved past turns that ended by a. */
  ghost predicate Passed(tracks: seq<Track>, cursor: seq<nat>, a: int)
  {
    && |cursor| == |tracks|
    && forall m :: 0 <= m < |tracks| ==>
         cursor[m] <= |tracks[m].spans| && forall j :: 0 <= j < cursor[m] ==> tracks[m].spans[j].end <= a
  }

  ghost predicate WholeIn(tracks: seq<Track>, x: Span)
  {
    forall m :: 0 <= m < |tracks| ==> Whole(tracks[m].spans, x.start, x.end)
  }

  method ActiveIn(tracks: seq<Track>, before: seq<nat>, x: Span) returns (cursor: seq<nat>, on: set<Speaker>)
    requires AllSeparate(tracks) && WholeIn(tracks, x) && x.start < x.end && Passed(tracks, before, x.start)
    ensures Passed(tracks, cursor, x.start) && on == OnAt(tracks, x.start)
  {
    cursor, on := before, {};
    assert OnAt(tracks[..0], x.start) == {};
    for m := 0 to |tracks|
      invariant Passed(tracks, cursor, x.start) && on == OnAt(tracks[..m], x.start)
    {
      var spans := tracks[m].spans;
      var i := cursor[m];
      while i < |spans| && spans[i].end <= x.start
        invariant i <= |spans| && forall j :: 0 <= j < i ==> spans[j].end <= x.start
      {
        i := i + 1;
      }
      cursor := cursor[m := i];
      CursorDecides(spans, x.start, x.end, i);
      if i < |spans| && spans[i].start <= x.start && x.end <= spans[i].end {
        on := on + {tracks[m].speaker};
      }
      assert tracks[..m + 1] == tracks[..m] + [tracks[m]];
      OnAtAppend(tracks[..m], tracks[m], x.start);
    }
    assert tracks[..|tracks|] == tracks;
  }

  method Active(tracks: seq<Track>, regions: seq<Span>) returns (result: seq<set<Speaker>>)
    requires AllSeparate(tracks) && Successive(regions)
    requires forall k :: 0 <= k < |regions| ==> WholeIn(tracks, regions[k])
    ensures |result| == |regions| && forall k :: 0 <= k < |regions| ==> result[k] == OnAt(tracks, regions[k].start)
  {
    var cursor := seq(|tracks|, m => 0);
    result := [];
    for k := 0 to |regions|
      invariant |result| == k && forall j :: 0 <= j < k ==> result[j] == OnAt(tracks, regions[j].start)
      invariant k < |regions| ==> Passed(tracks, cursor, regions[k].start)
    {
      var on;
      cursor, on := ActiveIn(tracks, cursor, regions[k]);
      result := result + [on];
    }
  }

  // ---------------------------------------------------------------- overlaps

  /** The activity sets of the regions are the speakers of the scene. */
  ghost predicate Observed(scene: Scene, regions: seq<Span>, refOn: seq<set<Speaker>>, hypOn: seq<set<Speaker>>)
  {
    && |refOn| == |hypOn| == |regions|
    && Fits(scene, regions)
    && forall k :: 0 <= k < |regions| ==>
         refOn[k] == SpeakersAt(scene.ref, regions[k].start) && hypOn[k] == SpeakersAt(scene.hyp, regions[k].start)
  }

  method AddOverlap(before: Overlap, rs: set<Speaker>, hs: set<Speaker>, d: int) returns (overlap: Overlap)
    ensures forall p: Pair :: Gain(overlap, p) == Gain(before, p) + if p.0 in rs && p.1 in hs then d else 0
  {
    overlap := before;
    var left := rs;
    while left != {}
      invariant left <= rs
      invariant forall p: Pair :: Gain(overlap, p) == Gain(before, p) + if p.0 in rs - left && p.1 in hs then d else 0
      decreases left
    {
      var r :| r in left;
      left := left - {r};
      ghost var was := overlap;
      var others := hs;
      while others != {}
        invariant others <= hs
        invariant forall p: Pair :: Gain(overlap, p) == Gain(was, p) + if p.0 == r && p.1 in hs - others then d else 0
        decreases others
      {
        var h :| h in others;
        others := others - {h};
        overlap := overlap[(r, h) := (if (r, h) in overlap then overlap[(r, h)] else 0) + d];
      }
    }
  }

  /** One region's contribution, for every quantity. */
  lemma {:induction false} ObservedRegion(scene: Scene, m: Measure, regions: seq<Span>, refOn: seq<set<Speaker>>, hypOn: seq<set<Speaker>>, k: nat)
    requires Observed(scene, regions, refOn, hypOn) && k < |regions|
    ensures Tally(scene, m, scene.window.start, Reach(scene, regions, k + 1))
            == Tally(scene, m, scene.window.start, Reach(scene, regions, k))
               + (regions[k].end - regions[k].start) * Amount(m, refOn[k], hypOn[k])
  {
    var x := regions[k];
    assert Uniform(scene, x) && x.Has(x.start);
    forall t | x.Has(t) ensures Value(scene, m, t) == Value(scene, m, x.start) {}
    RegionAdds(scene, m, regions, k);
  }

  method Overlaps(ghost scene: Scene, regions: seq<Span>, refOn: seq<set<Speaker>>, hypOn: seq<set<Speaker>>) returns (overlap: Overlap)
    requires |refOn| == |hypOn| == |regions|
    requires Observed(scene, regions, refOn, hypOn) && scene.window.start < scene.window.end
    ensures forall p: Pair :: Gain(overlap, p) == Total(scene, Together(p))
  {
    hide Observed, Value;
    overlap := map[];
    for k := 0 to |regions|
      invariant forall p: Pair :: Gain(overlap, p) == Tally(scene, Together(p), scene.window.start, Reach(scene, regions, k))
    {
      var d := regions[k].end - regions[k].start;
      overlap := AddOverlap(overlap, refOn[k], hypOn[k], d);
      forall p: Pair ensures Gain(overlap, p) == Tally(scene, Together(p), scene.window.start, Reach(scene, regions, k + 1)) {
        ObservedRegion(scene, Together(p), regions, refOn, hypOn, k);
      }
    }
    forall p: Pair ensures Gain(overlap, p) == Total(scene, Together(p)) { ObservedEnd(scene, Together(p), regions, refOn, hypOn); }
  }

  lemma {:induction false} ObservedEnd(scene: Scene, m: Measure, regions: seq<Span>, refOn: seq<set<Speaker>>, hypOn: seq<set<Speaker>>)
    requires Observed(scene, regions, refOn, hypOn) && scene.window.start < scene.window.end
    ensures Tally(scene, m, scene.window.start, Reach(scene, regions, |regions|)) == Total(scene, m)
  {
    RegionsEnd(scene, m, regions);
  }

  // ---------------------------------------------------------------- totals

  lemma {:induction false} PairUp(keys: set<Speaker>, mapping: map<Speaker, Speaker>)
    requires keys <= mapping.Keys
    ensures |set r | r in keys :: (r, mapping[r])| == |keys|
  {
    var image := set r | r in keys :: (r, mapping[r]);
    if keys == {} {
      assert image == {};
    } else {
      var x :| x in keys;
      PairUp(keys - {x}, mapping);
      var smaller := set r | r in keys - {x} :: (r, mapping[r]);
      assert image == smaller + {(x, mapping[x])};
    }
  }

  /** Counting reference speakers whose match is active counts matched pairs. */
  lemma {:induction false} CorrectIsMatched(mapping: map<Speaker, Speaker>, rs: set<Speaker>, hs: set<Speaker>)
    ensures |set r | r in rs && r in mapping && mapping[r] in hs| == |MatchedAt(mapping.Items, rs, hs)|
  {
    var keys := set r | r in rs && r in mapping && mapping[r] in hs;
    PairUp(keys, mapping);
    var image := set r | r in keys :: (r, mapping[r]);
    forall p ensures p in image <==> p in MatchedAt(mapping.Items, rs, hs) {
      if p in MatchedAt(mapping.Items, rs, hs) { assert p == (p.0, mapping[p.0]); }
    }
    assert image == MatchedAt(mapping.Items, rs, hs);
  }

  datatype Totals = Totals(missed: int, falseAlarm: int, confusion: int, total: int)

  ghost function TotalsUpTo(scene: Scene, pairs: set<Pair>, until: int): Totals
  {
    var from := scene.window.start;
    Totals(Tally(scene, Missed, from, until), Tally(scene, FalseAlarm, from, until),
           Tally(scene, Confusion(pairs), from, until), Tally(scene, Reference, from, until))
  }

  method AddRegion(before: Totals, d: int, rs: set<Speaker>, hs: set<Speaker>, mapping: map<Speaker, Speaker>) returns (r: Totals)
    ensures r == Totals(before.missed + d * Amount(Missed, rs, hs), before.falseAlarm + d * Amount(FalseAlarm, rs, hs),
                        before.confusion + d * Amount(Confusion(mapping.Items), rs, hs), before.total + d * Amount(Reference, rs, hs))
  {
    var correct := |set r | r in rs && r in mapping && mapping[r] in hs|;
    CorrectIsMatched(mapping, rs, hs);
    r := Totals(before.missed + d * Max(0, |rs| - |hs|), before.falseAlarm + d * Max(0, |hs| - |rs|),
                before.confusion + d * (Min(|rs|, |hs|) - correct), before.total + d * |rs|);
  }

  method CountTotals(ghost scene: Scene, regions: seq<Span>, refOn: seq<set<Speaker>>, hypOn: seq<set<Speaker>>,
                     mapping: map<Speaker, Speaker>) returns (r: Totals)
    requires |refOn| == |hypOn| == |regions|
    requires Observed(scene, regions, refOn, hypOn) && scene.window.start < scene.window.end
    ensures r == Totals(Total(scene, Missed), Total(scene, FalseAlarm), Total(scene, Confusion(mapping.Items)), Total(scene, Reference))
  {
    hide Observed, Value, Amount;
    r := Totals(0, 0, 0, 0);
    for k := 0 to |regions|
      invariant r == TotalsUpTo(scene, mapping.Items, Reach(scene, regions, k))
    {
      r := AddRegion(r, regions[k].end - regions[k].start, refOn[k], hypOn[k], mapping);
      ObservedRegion(scene, Missed, regions, refOn, hypOn, k);
      ObservedRegion(scene, FalseAlarm, regions, refOn, hypOn, k);
      ObservedRegion(scene, Confusion(mapping.Items), regions, refOn, hypOn, k);
      ObservedRegion(scene, Reference, regions, refOn, hypOn, k);
    }
    ObservedEnd(scene, Missed, regions, refOn, hypOn);
    ObservedEnd(scene, FalseAlarm, regions, refOn, hypOn);
    ObservedEnd(scene, Confusion(mapping.Items), regions, refOn, hypOn);
    ObservedEnd(scene, Reference, regions, refOn, hypOn);
  }

  /** Length of a list of spans is the number of milliseconds they cover. */
  method ScoredTime(ghost scene: Scene, scored: seq<Span>) returns (ms: int)
    requires Successive(scored) && (forall t :: Scored(scene, t) <==> Covered(scored, t))
    requires scene.window.start < scene.window.end
    ensures ms == Total(scene, Time)
  {
    ms := 0;
    for k := 0 to |scored|
      invariant ms == Tally(scene, Time, scene.window.start, Reach(scene, scored, k))
    {
      ms := ms + scored[k].end - scored[k].start;
      TimeRegion(scene, scored, k);
    }
    RegionsEnd(scene, Time, scored);
  }

  lemma {:induction false} TimeRegion(scene: Scene, scored: seq<Span>, k: nat)
    requires Successive(scored) && (forall t :: Scored(scene, t) <==> Covered(scored, t)) && k < |scored|
    ensures Tally(scene, Time, scene.window.start, scored[k].end)
            == Tally(scene, Time, scene.window.start, Reach(scene, scored, k)) + (scored[k].end - scored[k].start)
  {
    forall t | scored[k].Has(t) ensures Value(scene, Time, t) == 1 { assert Covered(scored, t); }
    assert scored[k].Has(scored[k].start);
    RegionAdds(scene, Time, scored, k);
  }

  ghost function Lengths(spans: seq<Span>): int
  {
    if spans == [] then 0
    else Lengths(spans[..|spans| - 1]) + spans[|spans| - 1].end - spans[|spans| - 1].start
  }

  lemma {:induction false} LengthsUpTo(scene: Scene, spans: seq<Span>, k: nat)
    requires Successive(spans) && (forall t :: Scored(scene, t) <==> Covered(spans, t)) && k <= |spans|
    ensures Lengths(spans[..k]) == Tally(scene, Time, scene.window.start, Reach(scene, spans, k))
  {
    if k > 0 {
      LengthsUpTo(scene, spans, k - 1);
      TimeRegion(scene, spans, k - 1);
      assert spans[..k][..k - 1] == spans[..k - 1];
    }
  }

  /** The elementary regions are as long together as the scored spans. */
  lemma {:induction false} RegionsAddUpToScored(scene: Scene, regions: seq<Span>, scored: seq<Span>)
    requires scene.window.start < scene.window.end && Fits(scene, regions)
    requires Successive(scored) && forall t :: Scored(scene, t) <==> Covered(scored, t)
    ensures Lengths(regions) == Lengths(scored) == Total(scene, Time)
  {
    LengthsUpTo(scene, regions, |regions|);
    LengthsUpTo(scene, scored, |scored|);
    RegionsEnd(scene, Time, regions);
    RegionsEnd(scene, Time, scored);
    assert regions[..|regions|] == regions && scored[..|scored|] == scored;
  }

  // ---------------------------------------------------------------- the mapping makes the error least

  lemma {:induction false} MatchedSplits(pairs: set<Pair>, p: Pair, r: set<Speaker>, h: set<Speaker>)
    requires p in pairs
    ensures |MatchedAt(pairs, r, h)| == |MatchedAt(pairs - {p}, r, h)| + if p.0 in r && p.1 in h then 1 else 0
  {
    if p.0 in r && p.1 in h {
      assert MatchedAt(pairs, r, h) == MatchedAt(pairs - {p}, r, h) + {p};
    } else {
      assert MatchedAt(pairs, r, h) == MatchedAt(pairs - {p}, r, h);
    }
  }

  lemma {:induction false} CorrectSplits(scene: Scene, pairs: set<Pair>, p: Pair, from: int, until: int)
    requires p in pairs
    ensures Tally(scene, Correct(pairs), from, until)
            == Tally(scene, Correct(pairs - {p}), from, until) + Tally(scene, Together(p), from, until)
    decreases until - from
  {
    if from < until {
      CorrectSplits(scene, pairs, p, from, until - 1);
      MatchedSplits(pairs, p, SpeakersAt(scene.ref, until - 1), SpeakersAt(scene.hyp, until - 1));
    }
  }

  lemma {:induction false} CorrectNothing(scene: Scene, from: int, until: int)
    ensures Tally(scene, Correct({}), from, until) == 0
    decreases until - from
  {
    if from < until {
      CorrectNothing(scene, from, until - 1);
      assert MatchedAt({}, SpeakersAt(scene.ref, until - 1), SpeakersAt(scene.hyp, until - 1)) == {};
    }
  }

  /** Total overlap of a mapping is the time its pairs are both active. */
  lemma {:induction false} WeightIsCorrectTime(scene: Scene, overlap: Overlap, pairs: set<Pair>)
    requires forall p: Pair :: Gain(overlap, p) == Total(scene, Together(p))
    ensures Weight(overlap, pairs) == Total(scene, Correct(pairs))
  {
    if pairs == {} {
      CorrectNothing(scene, scene.window.start, scene.window.end);
    } else {
      var p :| p in pairs;
      WeightIsCorrectTime(scene, overlap, pairs - {p});
      WeightSplits(overlap, pairs, p);
      CorrectSplits(scene, pairs, p, scene.window.start, scene.window.end);
    }
  }

  /** Missed, false alarm and confusion are what the busier side does beyond the
      matched time. */
  lemma {:induction false} ErrorIdentity(scene: Scene, pairs: set<Pair>, from: int, until: int)
    ensures Tally(scene, Missed, from, until) + Tally(scene, FalseAlarm, from, until) + Tally(scene, Confusion(pairs), from, until)
            == Tally(scene, Busiest, from, until) - Tally(scene, Correct(pairs), from, until)
    decreases until - from
  {
    if from < until { ErrorIdentity(scene, pairs, from, until - 1); }
  }

  // Pairs of speakers that never meet weigh nothing.
  lemma {:induction false} WeightWithoutIdle(overlap: Overlap, pairs: set<Pair>, kept: set<Pair>)
    requires kept <= pairs && forall p :: p in pairs - kept ==> Gain(overlap, p) == 0
    ensures Weight(overlap, pairs) == Weight(overlap, kept)
    decreases pairs
  {
    if p :| p in pairs && p !in kept {
      WeightSplits(overlap, pairs, p);
      WeightWithoutIdle(overlap, pairs - {p}, kept);
    } else {
      assert pairs == kept;
    }
  }

  /** Only speakers heard in the window can gain anything. */
  lemma {:induction false} IdleGainsNothing(scene: Scene, p: Pair, from: int, until: int)
    requires forall t :: scene.window.Has(t) ==> p.0 !in SpeakersAt(scene.ref, t) || p.1 !in SpeakersAt(scene.hyp, t)
    ensures Tally(scene, Together(p), from, until) == 0
    decreases until - from
  {
    if from < until { IdleGainsNothing(scene, p, from, until - 1); }
  }

  // ---------------------------------------------------------------- putting it together

  lemma {:induction false} TracksAreUniform(tracks: seq<Track>, x: Span, t: int)
    requires WholeIn(tracks, x) && x.Has(t)
    ensures OnAt(tracks, t) == OnAt(tracks, x.start)
  {
    forall m | 0 <= m < |tracks| ensures Covered(tracks[m].spans, t) <==> Covered(tracks[m].spans, x.start) {
      CoverageIsUniform(tracks[m].spans, x.start, x.end, t);
    }
  }

  /** Inside the window the clipped tracks say who speaks. */
  ghost predicate Hears(tracks: seq<Track>, segments: seq<Segment>, window: Span)
  {
    && OneEach(tracks) && AllSeparate(tracks) && InWindow(tracks, window)
    && forall t :: window.Has(t) ==> OnAt(tracks, t) == SpeakersAt(segments, t)
  }

  lemma {:induction false} RegionsFit(scene: Scene, ref: seq<Track>, hyp: seq<Track>, regions: seq<Span>)
    requires Hears(ref, scene.ref, scene.window) && Hears(hyp, scene.hyp, scene.window)
    requires Successive(regions) && forall t :: Covered(regions, t) <==> Scored(scene, t)
    requires forall k :: 0 <= k < |regions| ==> WholeIn(ref, regions[k]) && WholeIn(hyp, regions[k])
    ensures Fits(scene, regions)
  {
    forall k | 0 <= k < |regions| ensures Uniform(scene, regions[k]) {
      forall t | regions[k].Has(t)
        ensures Scored(scene, t)
        ensures SpeakersAt(scene.ref, t) == SpeakersAt(scene.ref, regions[k].start)
        ensures SpeakersAt(scene.hyp, t) == SpeakersAt(scene.hyp, regions[k].start)
      {
        assert regions[k].Has(regions[k].start);
        assert Covered(regions, t) && Covered(regions, regions[k].start);
        TracksAreUniform(ref, regions[k], t);
        TracksAreUniform(hyp, regions[k], t);
      }
    }
  }

  method FindRegions(ghost scene: Scene, ref: seq<Track>, hyp: seq<Track>, scored: seq<Span>, window: Span) returns (regions: seq<Span>)
    requires scene.window == window && window.start < window.end
    requires Hears(ref, scene.ref, window) && Hears(hyp, scene.hyp, window)
    requires Separate(scored) && forall t :: Covered(scored, t) <==> Scored(scene, t)
    ensures Fits(scene, regions)
    ensures forall k :: 0 <= k < |regions| ==> WholeIn(ref, regions[k]) && WholeIn(hyp, regions[k])
  {
    forall i | 0 <= i < |scored| ensures window.start <= scored[i].start <= scored[i].end <= window.end {
      assert scored[i].Has(scored[i].start) && scored[i].Has(scored[i].end - 1);
      assert Scored(scene, scored[i].start) && Scored(scene, scored[i].end - 1);
    }
    var points := MarkSpans([], scored, window);
    points := MarkTracks(points, ref, window);
    points := MarkTracks(points, hyp, window);
    regions := Regions(points, scored);
    forall k | 0 <= k < |regions| ensures WholeIn(ref, regions[k]) && WholeIn(hyp, regions[k]) {
      forall m | 0 <= m < |ref| ensures Whole(ref[m].spans, regions[k].start, regions[k].end) {
        ElementaryIsWhole(points, ref[m].spans, regions[k]);
      }
      forall m | 0 <= m < |hyp| ensures Whole(hyp[m].spans, regions[k].start, regions[k].end) {
        ElementaryIsWhole(points, hyp[m].spans, regions[k]);
      }
    }
    RegionsFit(scene, ref, hyp, regions);
  }

  /** Activity in every region, from both sides. */
  method Observe(ghost scene: Scene, ref: seq<Track>, hyp: seq<Track>, scored: seq<Span>, window: Span)
    returns (regions: seq<Span>, refOn: seq<set<Speaker>>, hypOn: seq<set<Speaker>>)
    requires scene.window == window && window.start < window.end
    requires Hears(ref, scene.ref, window) && Hears(hyp, scene.hyp, window)
    requires Separate(scored) && forall t :: Covered(scored, t) <==> Scored(scene, t)
    ensures |refOn| == |hypOn| == |regions| && Observed(scene, regions, refOn, hypOn)
  {
    regions := FindRegions(scene, ref, hyp, scored, window);
    refOn := Active(ref, regions);
    hypOn := Active(hyp, regions);
    forall k | 0 <= k < |regions| ensures scene.window.Has(regions[k].start) {
      assert Uniform(scene, regions[k]) && regions[k].Has(regions[k].start);
    }
  }

  function Names(tracks: seq<Track>): (r: seq<Speaker>)
    ensures |r| == |tracks| && forall k :: 0 <= k < |tracks| ==> r[k] == tracks[k].speaker
  {
    seq(|tracks|, k requires 0 <= k < |tracks| => tracks[k].speaker)
  }

  /** A speaker heard in the window has a track. */
  lemma {:induction false} HeardHasTrack(tracks: seq<Track>, segments: seq<Segment>, window: Span, speaker: Speaker, t: int)
    requires Hears(tracks, segments, window) && window.Has(t) && speaker in SpeakersAt(segments, t)
    ensures speaker in Names(tracks)
  {
    assert speaker in OnAt(tracks, t);
    var k :| 0 <= k < |tracks| && tracks[k].speaker == speaker;
    assert Names(tracks)[k] == speaker;
  }

  lemma {:induction false} UntrackedGainsNothing(scene: Scene, ref: seq<Track>, hyp: seq<Track>, p: Pair)
    requires Hears(ref, scene.ref, scene.window) && Hears(hyp, scene.hyp, scene.window)
    requires p.0 !in Names(ref) || p.1 !in Names(hyp)
    ensures Total(scene, Together(p)) == 0
  {
    forall t | scene.window.Has(t) ensures p.0 !in SpeakersAt(scene.ref, t) || p.1 !in SpeakersAt(scene.hyp, t) {
      if p.0 in SpeakersAt(scene.ref, t) && p.1 in SpeakersAt(scene.hyp, t) {
        HeardHasTrack(ref, scene.ref, scene.window, p.0, t);
        HeardHasTrack(hyp, scene.hyp, scene.window, p.1, t);
      }
    }
    IdleGainsNothing(scene, p, scene.window.start, scene.window.end);
  }

  /** A mapping best among tracked speakers is best among all. */
  lemma {:induction false} LeastError(scene: Scene, ref: seq<Track>, hyp: seq<Track>, overlap: Overlap, best: set<Pair>, pairs: set<Pair>)
    requires Hears(ref, scene.ref, scene.window) && Hears(hyp, scene.hyp, scene.window)
    requires forall p: Pair :: Gain(overlap, p) == Total(scene, Together(p))
    requires forall q :: OneToOne(q) && Among(q, Names(ref), Names(hyp)) ==> Weight(overlap, q) <= Weight(overlap, best)
    requires OneToOne(pairs)
    ensures ErrorTime(scene, best) <= ErrorTime(scene, pairs)
  {
    hide Hears, Names;
    var kept := set p | p in pairs && p.0 in Names(ref) && p.1 in Names(hyp);
    forall p | p in pairs - kept ensures Gain(overlap, p) == 0 { UntrackedGainsNothing(scene, ref, hyp, p); }
    WeightWithoutIdle(overlap, pairs, kept);
    assert OneToOne(kept) && Among(kept, Names(ref), Names(hyp));
    WeightIsCorrectTime(scene, overlap, best);
    WeightIsCorrectTime(scene, overlap, pairs);
    ErrorIdentity(scene, best, scene.window.start, scene.window.end);
    ErrorIdentity(scene, pairs, scene.window.start, scene.window.end);
  }
}
