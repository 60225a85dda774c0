/** The scorer's entry point: what it refuses, and what it reports. */
module DiarizationReport {
  import opened Outcomes
  import opened Intervals
  import opened SpeakerMapping
  import opened Diarization
  import opened DiarizationSweep
  import opened DiarizationScore

  datatype Report = Report(
    der: Option<real>, missed: int, falseAlarm: int, confusion: int, total: int, scored: int,
    window: Span, collar: nat, mapping: map<Speaker, Speaker>, refs: seq<Speaker>, hyps: seq<Speaker>)

  /** The scoring window: the one asked for, or the extent of the reference. */
  ghost predicate IsWindow(reference: seq<Segment>, uem: Option<Span>, w: Span)
  {
    match uem
    case Some(asked) => w == asked
    case None =>
      && (forall i :: 0 <= i < |reference| ==>
            && reference[i].start.Some? && w.start <= reference[i].start.value
            && reference[i].end.Some? && reference[i].end.value <= w.end)
      && (exists i :: 0 <= i < |reference| && reference[i].start == Some(w.start))
      && (exists i :: 0 <= i < |reference| && reference[i].end == Some(w.end))
  }

  lemma {:induction false} WindowIsUnique(reference: seq<Segment>, uem: Option<Span>, v: Span, w: Span)
    requires IsWindow(reference, uem, v) && IsWindow(reference, uem, w)
    ensures v == w
  {
  }

  /** Earliest start and latest end; a missing field is an error. */
  method ReferenceExtent(reference: seq<Segment>) returns (w: Option<Span>)
    ensures w.Some? ==> IsWindow(reference, None, w.value)
    ensures w.None? ==> reference == [] || exists i :: 0 <= i < |reference| && !reference[i].Valid()
  {
    if reference == [] { return None; }
    if reference[0].start.None? || reference[0].end.None? { return None; }
    var x := Span(reference[0].start.value, reference[0].end.value);
    for i := 1 to |reference|
      invariant forall k :: 0 <= k < i ==>
                  && reference[k].start.Some? && x.start <= reference[k].start.value
                  && reference[k].end.Some? && reference[k].end.value <= x.end
      invariant exists k :: 0 <= k < i && reference[k].start == Some(x.start)
      invariant exists k :: 0 <= k < i && reference[k].end == Some(x.end)
    {
      if reference[i].start.None? || reference[i].end.None? { return None; }
      x := Span(Min(x.start, reference[i].start.value), Max(x.end, reference[i].end.value));
    }
    return Some(x);
  }

  ghost predicate AllValid(segments: seq<Segment>)
  {
    forall i :: 0 <= i < |segments| ==> segments[i].Valid()
  }

  /** Speakers heard at some millisecond of the window. */
  ghost predicate Heard(segments: seq<Segment>, w: Span, speaker: Speaker)
  {
    exists t :: w.Has(t) && speaker in SpeakersAt(segments, t)
  }

  /** Exactly the speakers heard in the window, each named once. */
  ghost predicate Roster(names: seq<Speaker>, segments: seq<Segment>, w: Span)
  {
    Distinct(names) && forall speaker :: speaker in names <==> Heard(segments, w, speaker)
  }

  lemma {:induction false} RosterSize(a: seq<Speaker>, b: seq<Speaker>)
    requires Distinct(a) && Distinct(b) && forall x :: x in a ==> x in b
    ensures |a| <= |b|
  {
    if a != [] {
      var n := |a| - 1;
      assert a[n] in b;
      var k :| 0 <= k < |b| && b[k] == a[n];
      var rest := b[..k] + b[k + 1..];
      forall x | x in a[..n] ensures x in rest {
        var i :| 0 <= i < n && a[i] == x;
        assert a[i] in b;
        var j :| 0 <= j < |b| && b[j] == x;
        assert j < k ==> rest[j] == x;
        assert j > k ==> rest[j - 1] == x;
      }
      RosterSize(a[..n], rest);
    }
  }

  /** More than sixteen speakers are heard. */
  ghost predicate Crowded(segments: seq<Segment>, w: Span)
  {
    exists names :: Roster(names, segments, w) && |names| > 16
  }

  lemma {:induction false} CrowdedMeans(names: seq<Speaker>, segments: seq<Segment>, w: Span)
    requires Roster(names, segments, w)
    ensures Crowded(segments, w) <==> |names| > 16
  {
    if Crowded(segments, w) {
      var other :| Roster(other, segments, w) && |other| > 16;
      RosterSize(other, names);
    }
  }

  ghost predicate Scorable(reference: seq<Segment>, hypothesis: seq<Segment>, collar: int, uem: Option<Span>, w: Span)
  {
    && IsWindow(reference, uem, w) && 0 <= w.start < w.end && 0 <= collar
    && AllValid(reference) && AllValid(hypothesis)
    && !(Crowded(reference, w) && Crowded(hypothesis, w))
  }

  lemma {:induction false} NamesAreRoster(tracks: seq<Track>, segments: seq<Segment>, w: Span)
    requires Hears(tracks, segments, w)
    requires forall k :: 0 <= k < |tracks| ==> tracks[k].spans != []
    ensures Roster(Names(tracks), segments, w)
  {
    forall speaker ensures speaker in Names(tracks) <==> Heard(segments, w, speaker) {
      if speaker in Names(tracks) {
        var k :| 0 <= k < |tracks| && tracks[k].speaker == speaker;
        var t := tracks[k].spans[0].start;
        assert tracks[k].spans[0].Has(t);
        assert w.Has(t) && speaker in OnAt(tracks, t);
      }
      if Heard(segments, w, speaker) {
        var t :| w.Has(t) && speaker in SpeakersAt(segments, t);
        HeardHasTrack(tracks, segments, w, speaker, t);
      }
    }
  }

  /** Group, merge and clip one side. */
  method Prepare(segments: seq<Segment>, window: Span) returns (all: Result<seq<Track>>, clipped: seq<Track>)
    requires window.start < window.end
    ensures all.Ok? <==> AllValid(segments)
    ensures all.Ok? ==> Represents(all.value, segments) && AllSeparate(all.value)
    ensures all.Ok? ==> Hears(clipped, segments, window) && Roster(Names(clipped), segments, window)
  {
    clipped := [];
    all := BySpeaker(segments);
    if all.Ok? {
      clipped := ClipTracks(all.value, window);
      assert InWindow(clipped, window);
      NamesAreRoster(clipped, segments, window);
    }
  }

  /** Everything the report says, against the per-millisecond definition. */
  ghost predicate Truthful(scene: Scene, r: Report)
  {
    && r.window == scene.window && r.collar == scene.collar
    && r.missed == Total(scene, Missed) && r.falseAlarm == Total(scene, FalseAlarm)
    && r.confusion == Total(scene, Confusion(r.mapping.Items)) && r.total == Total(scene, Reference)
    && r.scored == Total(scene, Time)
    && Roster(r.refs, scene.ref, scene.window) && Roster(r.hyps, scene.hyp, scene.window)
    && OneToOne(r.mapping.Items) && Among(r.mapping.Items, r.refs, r.hyps)
    && (r.der.None? <==> r.total == 0)
    && (r.der.Some? ==> r.der.value * r.total as real == (r.missed + r.falseAlarm + r.confusion) as real)
  }

  /** No one-to-one speaker mapping gives less error. */
  ghost predicate LeastOverMappings(scene: Scene, r: Report)
  {
    && r.missed + r.falseAlarm + r.confusion == ErrorTime(scene, r.mapping.Items)
    && ErrorTime(scene, r.mapping.Items) == Total(scene, Busiest) - Total(scene, Correct(r.mapping.Items))
    && forall pairs :: OneToOne(pairs) ==> ErrorTime(scene, r.mapping.Items) <= ErrorTime(scene, pairs)
  }

  function Rate(errors: int, total: int): (der: Option<real>)
    ensures der.None? <==> total == 0
    ensures der.Some? ==> der.value * total as real == errors as real
  {
    if total == 0 then None else Some(errors as real / total as real)
  }

  /** Find the best mapping of the observed regions and total them under it. */
  method MapAndCount(ghost scene: Scene, ref: seq<Track>, hyp: seq<Track>, regions: seq<Span>,
                     refOn: seq<set<Speaker>>, hypOn: seq<set<Speaker>>)
    returns (r: Result<map<Speaker, Speaker>>, totals: Totals)
    requires scene.window.start < scene.window.end
    requires Hears(ref, scene.ref, scene.window) && Hears(hyp, scene.hyp, scene.window)
    requires Distinct(Names(ref)) && Distinct(Names(hyp))
    requires |refOn| == |hypOn| == |regions| && Observed(scene, regions, refOn, hypOn)
    ensures r.Err? <==> |ref| > 16 && |hyp| > 16
    ensures r.Ok? ==> OneToOne(r.value.Items) && Among(r.value.Items, Names(ref), Names(hyp))
    ensures r.Ok? ==> totals == Totals(Total(scene, Missed), Total(scene, FalseAlarm), Total(scene, Confusion(r.value.Items)), Total(scene, Reference))
    ensures r.Ok? ==> forall pairs :: OneToOne(pairs) ==> ErrorTime(scene, r.value.Items) <= ErrorTime(scene, pairs)
  {
    hide Hears, Observed, Total, ErrorTime, Weight;
    totals := Totals(0, 0, 0, 0);
    var overlap := Overlaps(scene, regions, refOn, hypOn);
    var best := OptimalMapping(Names(ref), Names(hyp), overlap);
    if best.Err? { return Err(best.message), totals; }
    var mapping := best.value.0;
    totals := CountTotals(scene, regions, refOn, hypOn, mapping);
    forall pairs | OneToOne(pairs) ensures ErrorTime(scene, mapping.Items) <= ErrorTime(scene, pairs) {
      LeastError(scene, ref, hyp, overlap, mapping.Items, pairs);
    }
    r := Ok(mapping);
  }

  lemma {:induction false} TotalsAreLeast(scene: Scene, r: Report, totals: Totals)
    requires totals == Totals(Total(scene, Missed), Total(scene, FalseAlarm), Total(scene, Confusion(r.mapping.Items)), Total(scene, Reference))
    requires r.missed == totals.missed && r.falseAlarm == totals.falseAlarm && r.confusion == totals.confusion
    requires forall pairs :: OneToOne(pairs) ==> ErrorTime(scene, r.mapping.Items) <= ErrorTime(scene, pairs)
    ensures LeastOverMappings(scene, r)
  {
    ErrorIdentity(scene, r.mapping.Items, scene.window.start, scene.window.end);
  }

  /** Score tracks that already stand for the two inputs. */
  method ScoreTracks(scene: Scene, all: seq<Track>, ref: seq<Track>, hyp: seq<Track>) returns (r: Result<Report>)
    requires scene.window.start < scene.window.end
    requires Represents(all, scene.ref) && AllSeparate(all)
    requires Hears(ref, scene.ref, scene.window) && Hears(hyp, scene.hyp, scene.window)
    requires Distinct(Names(ref)) && Distinct(Names(hyp))
    requires Roster(Names(ref), scene.ref, scene.window) && Roster(Names(hyp), scene.hyp, scene.window)
    ensures r.Err? <==> |ref| > 16 && |hyp| > 16
    ensures r.Ok? ==> Truthful(scene, r.value) && LeastOverMappings(scene, r.value)
  {
    hide Roster, Heard, Hears, Represents, AllSeparate, Observed, Covered, Separate, Successive, Scored,
         Names, Distinct, OneToOne, Among, Total, ErrorTime;
    var scored := ScoredSpans(all, scene, scene.window, scene.collar);
    var ms := ScoredTime(scene, scored);
    var regions, refOn, hypOn := Observe(scene, ref, hyp, scored, scene.window);
    var mapped, totals := MapAndCount(scene, ref, hyp, regions, refOn, hypOn);
    if mapped.Err? { return Err(mapped.message); }
    var report := Report(Rate(totals.missed + totals.falseAlarm + totals.confusion, totals.total),
                         totals.missed, totals.falseAlarm, totals.confusion, totals.total, ms,
                         scene.window, scene.collar, mapped.value, Names(ref), Names(hyp));
    TotalsAreLeast(scene, report, totals);
    hide LeastOverMappings;
    return Ok(report);
  }

  /** Diarization error rate of a hypothesis. Refused exactly when the window,
      the collar or a segment is bad or both sides are crowded. */
  method DiarizationErrorRate(reference: seq<Segment>, hypothesis: seq<Segment>, collar: int, uem: Option<Span>)
    returns (r: Result<Report>)
    ensures r.Ok? <==> exists w :: Scorable(reference, hypothesis, collar, uem, w)
    ensures r.Ok? ==>
              && Scorable(reference, hypothesis, collar, uem, r.value.window)
              && Truthful(Scene(reference, hypothesis, collar, r.value.window), r.value)
              && LeastOverMappings(Scene(reference, hypothesis, collar, r.value.window), r.value)
  {
    var w := uem;
    if uem.None? { w := ReferenceExtent(reference); }
    if w.None? { return Err("no scoring window"); }
    var window := w.value;
    forall v | IsWindow(reference, uem, v) ensures v == window { WindowIsUnique(reference, uem, v, window); }
    if window.start < 0 || window.end < 0 || window.end <= window.start { return Err("empty scoring window"); }
    if collar < 0 { return Err("collar_ms must be a nonnegative integer"); }
    var allRef, ref := Prepare(reference, window);
    if allRef.Err? { return Err(allRef.message); }
    var allHyp, hyp := Prepare(hypothesis, window);
    if allHyp.Err? { return Err(allHyp.message); }
    CrowdedMeans(Names(ref), reference, window);
    CrowdedMeans(Names(hyp), hypothesis, window);
    assert Distinct(Names(ref)) && Distinct(Names(hyp));
    hide LeastOverMappings, Crowded, Hears, Roster, Represents, AllValid, IsWindow, Names;
    r := ScoreTracks(Scene(reference, hypothesis, collar, window), allRef.value, ref, hyp);
    assert r.Ok? <==> Scorable(reference, hypothesis, collar, uem, window);
    assert r.Ok? ==> r.value.window == window;
  }
}
