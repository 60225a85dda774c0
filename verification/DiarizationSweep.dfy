/** The scorer itself: grouping, collars, elementary regions, moving cursors and
    running totals, proved against the per-millisecond definition. */
module DiarizationSweep {
  import opened Outcomes
  import opened Intervals
  import opened SpeakerMapping
  import opened Diarization

  /** One speaker's turns, in the order speakers first appear. */
  datatype Track = Track(speaker: Speaker, spans: seq<Span>)

  ghost function OnAt(tracks: seq<Track>, t: int): set<Speaker>
  {
    set k | 0 <= k < |tracks| && Covered(tracks[k].spans, t) :: tracks[k].speaker
  }

  ghost predicate OneEach(tracks: seq<Track>)
  {
    forall i, j :: 0 <= i < j < |tracks| ==> tracks[i].speaker != tracks[j].speaker
  }

  ghost predicate AllSeparate(tracks: seq<Track>)
  {
    forall i :: 0 <= i < |tracks| ==> Separate(tracks[i].spans)
  }

  lemma {:induction false} OnAtMeans(tracks: seq<Track>, k: nat, t: int)
    requires OneEach(tracks) && k < |tracks|
    ensures tracks[k].speaker in OnAt(tracks, t) <==> Covered(tracks[k].spans, t)
  {
    if tracks[k].speaker in OnAt(tracks, t) {
      var j :| 0 <= j < |tracks| && Covered(tracks[j].spans, t) && tracks[j].speaker == tracks[k].speaker;
      assert j == k;
    }
  }

  // ---------------------------------------------------------------- grouping by speaker

  function AddTurn(tracks: seq<Track>, speaker: Speaker, x: Span): (r: seq<Track>)
    ensures forall k :: 0 <= k < |r| ==> r[k].speaker == speaker || exists j :: 0 <= j < |tracks| && tracks[j].speaker == r[k].speaker
  {
    if tracks == [] then [Track(speaker, [x])]
    else if tracks[0].speaker == speaker then [Track(speaker, tracks[0].spans + [x])] + tracks[1..]
    else
      var rest := AddTurn(tracks[1..], speaker, x);
      assert forall j :: 0 <= j < |tracks| - 1 ==> tracks[1..][j] == tracks[j + 1];
      [tracks[0]] + rest
  }

  lemma {:induction false} AddTurnKeepsOneEach(tracks: seq<Track>, speaker: Speaker, x: Span)
    requires OneEach(tracks)
    ensures OneEach(AddTurn(tracks, speaker, x))
  {
    if tracks != [] && tracks[0].speaker != speaker {
      AddTurnKeepsOneEach(tracks[1..], speaker, x);
      var rest := AddTurn(tracks[1..], speaker, x);
      forall k | 0 <= k < |rest| ensures rest[k].speaker != tracks[0].speaker {
        if rest[k].speaker != speaker {
          var j :| 0 <= j < |tracks[1..]| && tracks[1..][j].speaker == rest[k].speaker;
          assert tracks[1..][j] == tracks[j + 1];
        }
      }
    }
  }

  lemma {:induction false} OnAtHead(tracks: seq<Track>, t: int)
    requires tracks != []
    ensures OnAt(tracks, t) == (if Covered(tracks[0].spans, t) then {tracks[0].speaker} else {}) + OnAt(tracks[1..], t)
  {
    assert forall k :: 0 < k < |tracks| ==> tracks[k] == tracks[1..][k - 1];
    assert forall k :: 0 <= k < |tracks| - 1 ==> tracks[1..][k] == tracks[k + 1];
  }

  lemma {:induction false} AddTurnOn(tracks: seq<Track>, speaker: Speaker, x: Span, t: int)
    ensures OnAt(AddTurn(tracks, speaker, x), t) == OnAt(tracks, t) + if x.Has(t) then {speaker} else {}
  {
    var r := AddTurn(tracks, speaker, x);
    OnAtHead(r, t);
    if tracks == [] {
      CoveredAppend([], x, t);
      assert [] + [x] == [x] && !Covered([], t);
      assert OnAt(r[1..], t) == {} == OnAt(tracks, t);
    } else {
      OnAtHead(tracks, t);
      if tracks[0].speaker == speaker {
        CoveredAppend(tracks[0].spans, x, t);
        assert r[1..] == tracks[1..];
      } else {
        AddTurnOn(tracks[1..], speaker, x, t);
        assert r[1..] == AddTurn(tracks[1..], speaker, x);
      }
    }
  }

  lemma {:induction false} SpeakersAppend(segments: seq<Segment>, s: Segment, t: int)
    requires s.Valid()
    ensures SpeakersAt(segments + [s], t) == SpeakersAt(segments, t) + if s.Extent().Has(t) then {s.speaker.value} else {}
  {
    assert forall x :: x in segments + [s] <==> x in segments || x == s;
  }

  lemma {:induction false} SpeakersEmpty(t: int)
    ensures SpeakersAt([], t) == {} && OnAt([], t) == {}
  {
  }

  /** The tracks say who speaks when. */
  ghost predicate Represents(tracks: seq<Track>, segments: seq<Segment>)
  {
    OneEach(tracks) && forall t :: OnAt(tracks, t) == SpeakersAt(segments, t)
  }

  method UnionTracks(tracks: seq<Track>) returns (r: seq<Track>)
    requires OneEach(tracks)
    ensures OneEach(r) && AllSeparate(r) && forall t :: OnAt(r, t) == OnAt(tracks, t)
  {
    r := [];
    for i := 0 to |tracks|
      invariant |r| == i && AllSeparate(r)
      invariant forall k :: 0 <= k < i ==> r[k].speaker == tracks[k].speaker
      invariant forall k, t :: 0 <= k < i ==> (Covered(r[k].spans, t) <==> Covered(tracks[k].spans, t))
    {
      var spans := Union(tracks[i].spans);
      r := r + [Track(tracks[i].speaker, spans)];
    }
  }

  /** Group segments by speaker and merge each speaker's turns; any bad segment
      refuses the whole list. */
  method BySpeaker(segments: seq<Segment>) returns (r: Result<seq<Track>>)
    ensures r.Ok? <==> forall i :: 0 <= i < |segments| ==> segments[i].Valid()
    ensures r.Ok? ==> Represents(r.value, segments) && AllSeparate(r.value)
  {
    var turns: seq<Track> := [];
    forall t ensures OnAt(turns, t) == SpeakersAt(segments[..0], t) { SpeakersEmpty(t); assert segments[..0] == []; }
    for i := 0 to |segments|
      invariant forall k :: 0 <= k < i ==> segments[k].Valid()
      invariant Represents(turns, segments[..i])
    {
      var s := segments[i];
      if !s.Valid() { return Err("bad segment"); }
      ghost var before := turns;
      turns := AddTurn(turns, s.speaker.value, s.Extent());
      AddTurnKeepsOneEach(before, s.speaker.value, s.Extent());
      assert segments[..i + 1] == segments[..i] + [s];
      forall t ensures OnAt(turns, t) == SpeakersAt(segments[..i + 1], t) {
        AddTurnOn(before, s.speaker.value, s.Extent(), t);
        SpeakersAppend(segments[..i], s, t);
      }
    }
    assert segments[..|segments|] == segments;
    var tracks := UnionTracks(turns);
    return Ok(tracks);
  }

  /** One of the first m tracks is this speaker's. */
  ghost predicate Known(tracks: seq<Track>, m: nat, speaker: Speaker)
    requires m <= |tracks|
  {
    exists j :: 0 <= j < m && tracks[j].speaker == speaker
  }

  /** Cut the tracks to the window and drop speakers with nothing left in it. */
  method ClipTracks(tracks: seq<Track>, window: Span) returns (r: seq<Track>)
    requires OneEach(tracks) && AllSeparate(tracks) && window.start < window.end
    ensures OneEach(r) && AllSeparate(r)
    ensures forall t :: OnAt(r, t) == if window.Has(t) then OnAt(tracks, t) else {}
    ensures forall k :: 0 <= k < |r| ==> r[k].spans != [] && Known(tracks, |tracks|, r[k].speaker)
    ensures forall k, i :: 0 <= k < |r| && 0 <= i < |r[k].spans| ==> window.start <= r[k].spans[i].start && r[k].spans[i].end <= window.end
  {
    hide ClippedUpTo;
    r := [];
    ClipNone(tracks, window);
    for m := 0 to |tracks|
      invariant ClippedUpTo(tracks, window, r, m)
    {
      var spans := Clip(tracks[m].spans, window);
      ClipNext(tracks, window, r, m, spans);
      if spans != [] { r := r + [Track(tracks[m].speaker, spans)]; }
    }
    ClipAll(tracks, window, r);
  }

  lemma {:induction false} ClipAll(tracks: seq<Track>, window: Span, r: seq<Track>)
    requires ClippedUpTo(tracks, window, r, |tracks|)
    ensures OneEach(r) && AllSeparate(r)
    ensures forall t :: OnAt(r, t) == if window.Has(t) then OnAt(tracks, t) else {}
    ensures forall k :: 0 <= k < |r| ==> r[k].spans != [] && Known(tracks, |tracks|, r[k].speaker)
    ensures forall k, i :: 0 <= k < |r| && 0 <= i < |r[k].spans| ==> window.start <= r[k].spans[i].start && r[k].spans[i].end <= window.end
  {
    hide OnAt, Separate, OneEach;
    assert tracks[..|tracks|] == tracks;
  }

  /** The first m tracks, cut to the window. */
  ghost predicate ClippedUpTo(tracks: seq<Track>, window: Span, r: seq<Track>, m: nat)
    requires m <= |tracks|
  {
    && OneEach(r) && AllSeparate(r)
    && (forall t :: OnAt(r, t) == if window.Has(t) then OnAt(tracks[..m], t) else {})
    && (forall k :: 0 <= k < |r| ==> r[k].spans != [] && Known(tracks, m, r[k].speaker))
    && (forall k, i :: 0 <= k < |r| && 0 <= i < |r[k].spans| ==> window.start <= r[k].spans[i].start && r[k].spans[i].end <= window.end)
  }

  lemma {:induction false} ClipNone(tracks: seq<Track>, window: Span)
    ensures ClippedUpTo(tracks, window, [], 0)
  {
    assert tracks[..0] == [];
    forall t ensures OnAt([], t) == if window.Has(t) then OnAt(tracks[..0], t) else {} { SpeakersEmpty(t); }
  }

  lemma {:induction false} ClipNext(tracks: seq<Track>, window: Span, before: seq<Track>, m: nat, spans: seq<Span>)
    requires OneEach(tracks) && m < |tracks| && ClippedUpTo(tracks, window, before, m) && Separate(spans)
    requires forall t :: Covered(spans, t) <==> Covered(tracks[m].spans, t) && window.Has(t)
    requires forall i :: 0 <= i < |spans| ==> window.start <= spans[i].start && spans[i].end <= window.end
    ensures ClippedUpTo(tracks, window, if spans == [] then before else before + [Track(tracks[m].speaker, spans)], m + 1)
  {
    var x := Track(tracks[m].speaker, spans);
    var r := if spans == [] then before else before + [x];
    assert OneEach(r) by { NewSpeaker(tracks, before, m, x); }
    hide Covered, Separate, OnAt, OneEach;
    assert tracks[..m + 1] == tracks[..m] + [tracks[m]];
    forall t ensures OnAt(r, t) == if window.Has(t) then OnAt(tracks[..m + 1], t) else {} {
      OnAtAppend(tracks[..m], tracks[m], t);
      OnAtAppend(before, x, t);
      NothingCovered(t);
    }
    forall k | 0 <= k < |r| ensures Known(tracks, m + 1, r[k].speaker) {
      if k < |before| {
        assert Known(tracks, m, before[k].speaker);
      } else {
        assert tracks[m].speaker == r[k].speaker;
      }
    }
  }

  lemma {:induction false} NewSpeaker(tracks: seq<Track>, before: seq<Track>, m: nat, x: Track)
    requires OneEach(tracks) && OneEach(before) && m < |tracks| && x.speaker == tracks[m].speaker
    requires forall k :: 0 <= k < |before| ==> Known(tracks, m, before[k].speaker)
    ensures OneEach(before + [x])
  {
    forall k | 0 <= k < |before| ensures before[k].speaker != x.speaker {
      assert Known(tracks, m, before[k].speaker);
      var j :| 0 <= j < m && tracks[j].speaker == before[k].speaker;
    }
  }

  lemma {:induction false} NothingCovered(t: int)
    ensures !Covered([], t)
  {
  }

  lemma {:induction false} OnAtAppend(tracks: seq<Track>, x: Track, t: int)
    ensures OnAt(tracks + [x], t) == OnAt(tracks, t) + if Covered(x.spans, t) then {x.speaker} else {}
  {
    var r := tracks + [x];
    assert forall k :: 0 <= k < |tracks| ==> r[k] == tracks[k];
    assert r[|tracks|] == x;
  }

  // ---------------------------------------------------------------- collars and the scored window

  ghost predicate Near(x: Span, c: nat, t: int)
  {
    x.start - c <= t < x.start + c || x.end - c <= t < x.end + c
  }

  ghost predicate NearTurn(tracks: seq<Track>, c: nat, t: int)
  {
    exists k, i :: 0 <= k < |tracks| && 0 <= i < |tracks[k].spans| && Near(tracks[k].spans[i], c, t)
  }

  method Collars(tracks: seq<Track>, c: nat) returns (collars: seq<Span>)
    ensures forall t :: Covered(collars, t) <==> NearTurn(tracks, c, t)
  {
    collars := [];
    if c == 0 { return; }
    for k := 0 to |tracks|
      invariant forall t :: Covered(collars, t) <==> NearTurn(tracks[..k], c, t)
    {
      var spans := tracks[k].spans;
      ghost var before := collars;
      for i := 0 to |spans|
        invariant forall t :: Covered(collars, t) <==> Covered(before, t) || exists j :: 0 <= j < i && Near(spans[j], c, t)
      {
        var x := spans[i];
        ghost var was := collars;
        collars := collars + [Span(x.start - c, x.start + c)] + [Span(x.end - c, x.end + c)];
        forall t ensures Covered(collars, t) <==> Covered(was, t) || Near(x, c, t) {
          CoveredAppend(was, Span(x.start - c, x.start + c), t);
          CoveredAppend(was + [Span(x.start - c, x.start + c)], Span(x.end - c, x.end + c), t);
        }
      }
      assert tracks[..k + 1] == tracks[..k] + [tracks[k]];
      forall t ensures Covered(collars, t) <==> NearTurn(tracks[..k + 1], c, t) { NearTurnAppend(tracks[..k], tracks[k], c, t); }
    }
    assert tracks[..|tracks|] == tracks;
  }

  lemma {:induction false} NearTurnAppend(tracks: seq<Track>, x: Track, c: nat, t: int)
    ensures NearTurn(tracks + [x], c, t) <==> NearTurn(tracks, c, t) || exists j :: 0 <= j < |x.spans| && Near(x.spans[j], c, t)
  {
    var r := tracks + [x];
    if NearTurn(tracks, c, t) {
      var k, i :| 0 <= k < |tracks| && 0 <= i < |tracks[k].spans| && Near(tracks[k].spans[i], c, t);
      assert r[k] == tracks[k];
    }
    if j :| 0 <= j < |x.spans| && Near(x.spans[j], c, t) { assert r[|tracks|] == x; }
  }

  /** Collars around merged turns are collars around who-speaks changes. */
  lemma {:induction false} NearTurnIsCollar(tracks: seq<Track>, scene: Scene, t: int)
    requires Represents(tracks, scene.ref) && AllSeparate(tracks)
    ensures NearTurn(tracks, scene.collar, t) <==> InCollar(scene, t)
  {
    if NearTurn(tracks, scene.collar, t) {
      var k, i :| 0 <= k < |tracks| && 0 <= i < |tracks[k].spans| && Near(tracks[k].spans[i], scene.collar, t);
      var x := tracks[k].spans[i];
      var p := if x.start - scene.collar <= t < x.start + scene.collar then x.start else x.end;
      EndpointIsBoundary(tracks, scene.ref, k, p);
    }
    if InCollar(scene, t) {
      var speaker, p :| Boundary(scene.ref, speaker, p) && p - scene.collar <= t < p + scene.collar;
      var k := BoundaryIsEndpoint(tracks, scene.ref, speaker, p);
    }
  }

  lemma {:induction false} EndpointIsBoundary(tracks: seq<Track>, segments: seq<Segment>, k: nat, p: int)
    requires Represents(tracks, segments) && AllSeparate(tracks) && k < |tracks|
    requires exists i :: 0 <= i < |tracks[k].spans| && (tracks[k].spans[i].start == p || tracks[k].spans[i].end == p)
    ensures Boundary(segments, tracks[k].speaker, p)
  {
    EndpointsAreChanges(tracks[k].spans, p);
    OnAtMeans(tracks, k, p);
    OnAtMeans(tracks, k, p - 1);
  }

  lemma {:induction false} BoundaryIsEndpoint(tracks: seq<Track>, segments: seq<Segment>, speaker: Speaker, p: int) returns (k: nat)
    requires Represents(tracks, segments) && AllSeparate(tracks) && Boundary(segments, speaker, p)
    ensures k < |tracks| && exists i :: 0 <= i < |tracks[k].spans| && (tracks[k].spans[i].start == p || tracks[k].spans[i].end == p)
  {
    assert speaker in OnAt(tracks, p) || speaker in OnAt(tracks, p - 1);
    k :| 0 <= k < |tracks| && tracks[k].speaker == speaker;
    EndpointsAreChanges(tracks[k].spans, p);
    OnAtMeans(tracks, k, p);
    OnAtMeans(tracks, k, p - 1);
  }

  /** The window minus every collar. */
  method ScoredSpans(tracks: seq<Track>, ghost scene: Scene, window: Span, collar: nat) returns (scored: seq<Span>)
    requires Represents(tracks, scene.ref) && AllSeparate(tracks)
    requires scene.window == window && scene.collar == collar && window.start < window.end
    ensures Separate(scored) && Successive(scored) && forall t :: Covered(scored, t) <==> Scored(scene, t)
  {
    var collars := Collars(tracks, collar);
    scored := Subtract([window], collars);
    forall t ensures Covered(scored, t) <==> Scored(scene, t) {
      NearTurnIsCollar(tracks, scene, t);
      assert Covered([window], t) <==> window.Has(t) by { assert [window][0] == window; }
    }
  }

  // ---------------------------------------------------------------- elementary regions

  ghost predicate Increasing(points: seq<int>)
  {
    forall i, j :: 0 <= i < j < |points| ==> points[i] < points[j]
  }

  lemma {:induction false} ConsIncreasing(x: int, rest: seq<int>)
    requires Increasing(rest) && (rest != [] ==> x < rest[0])
    ensures Increasing([x] + rest)
  {
    var r := [x] + rest;
    forall i, j | 0 <= i < j < |r| ensures r[i] < r[j] {
      assert r[j] == rest[j - 1] && rest[0] <= rest[j - 1];
    }
  }

  function InsertPoint(points: seq<int>, p: int): (r: seq<int>)
    requires Increasing(points)
    ensures Increasing(r) && forall q :: q in r <==> q in points || q == p
  {
    if points == [] then [p]
    else if p < points[0] then
      ConsIncreasing(p, points);
      [p] + points
    else if p == points[0] then points
    else
      var rest := InsertPoint(points[1..], p);
      assert rest != [] ==> rest[0] in points[1..] || rest[0] == p;
      assert points == [points[0]] + points[1..];
      ConsIncreasing(points[0], rest);
      [points[0]] + rest
  }

  ghost predicate Marks(points: seq<int>, spans: seq<Span>)
  {
    forall i :: 0 <= i < |spans| ==> spans[i].start in points && spans[i].end in points
  }

  method MarkSpans(before: seq<int>, spans: seq<Span>, window: Span) returns (points: seq<int>)
    requires Increasing(before)
    requires forall i :: 0 <= i < |spans| ==> window.start <= spans[i].start <= spans[i].end <= window.end
    ensures Increasing(points) && Marks(points, spans) && forall q :: q in before ==> q in points
  {
    points := before;
    for i := 0 to |spans|
      invariant Increasing(points) && Marks(points, spans[..i]) && forall q :: q in before ==> q in points
    {
      if window.start <= spans[i].start <= window.end { points := InsertPoint(points, spans[i].start); }
      if window.start <= spans[i].end <= window.end { points := InsertPoint(points, spans[i].end); }
    }
  }

  ghost predicate MarksAll(points: seq<int>, tracks: seq<Track>)
  {
    forall k :: 0 <= k < |tracks| ==> Marks(points, tracks[k].spans)
  }

  ghost predicate InWindow(tracks: seq<Track>, window: Span)
  {
    forall k, i :: 0 <= k < |tracks| && 0 <= i < |tracks[k].spans| ==>
      window.start <= tracks[k].spans[i].start <= tracks[k].spans[i].end <= window.end
  }

  method MarkTracks(before: seq<int>, tracks: seq<Track>, window: Span) returns (points: seq<int>)
    requires Increasing(before) && InWindow(tracks, window)
    ensures Increasing(points) && MarksAll(points, tracks) && forall q :: q in before ==> q in points
  {
    points := before;
    for k := 0 to |tracks|
      invariant Increasing(points) && MarksAll(points, tracks[..k]) && forall q :: q in before ==> q in points
    {
      points := MarkSpans(points, tracks[k].spans, window);
    }
  }

  /** No endpoint falls strictly inside. */
  ghost predicate Whole(spans: seq<Span>, a: int, b: int)
  {
    forall i :: 0 <= i < |spans| ==> !(a < spans[i].start < b) && !(a < spans[i].end < b)
  }

  lemma {:induction false} CoverageIsUniform(spans: seq<Span>, a: int, b: int, t: int)
    requires Whole(spans, a, b) && a <= t < b
    ensures Covered(spans, t) <==> Covered(spans, a)
  {
    assert forall i :: 0 <= i < |spans| ==> (spans[i].Has(t) <==> spans[i].Has(a));
  }

  /** No point falls strictly inside the region. */
  ghost predicate Elementary(points: seq<int>, x: Span)
  {
    x.start < x.end && forall p :: p in points ==> !(x.start < p < x.end)
  }

  lemma {:induction false} NeighboursAreElementary(points: seq<int>, i: nat)
    requires Increasing(points) && i + 1 < |points|
    ensures Elementary(points, Span(points[i], points[i + 1]))
  {
    forall p | p in points ensures !(points[i] < p < points[i + 1]) {
      var k :| 0 <= k < |points| && points[k] == p;
    }
  }

  lemma {:induction false} ElementaryIsWhole(points: seq<int>, spans: seq<Span>, x: Span)
    requires Elementary(points, x) && Marks(points, spans)
    ensures Whole(spans, x.start, x.end)
  {
  }

  /** The first span ending after a decides whether [a, b) is covered. */
  lemma {:induction false} CursorDecides(spans: seq<Span>, a: int, b: int, at: nat)
    requires Separate(spans) && Whole(spans, a, b) && a < b && at <= |spans|
    requires forall j :: 0 <= j < at ==> spans[j].end <= a
    requires at < |spans| ==> spans[at].end > a
    ensures Covered(spans, a) <==> at < |spans| && spans[at].start <= a && b <= spans[at].end
  {
    if at < |spans| && spans[at].start <= a { assert spans[at].Has(a); }
    forall i | 0 <= i < |spans| && i != at ensures !spans[i].Has(a) {
      if i < at { assert spans[i].end <= a; } else { assert spans[at].end < spans[i].start; }
    }
  }

  /** The regions found before point i. */
  ghost predicate FoundUpTo(points: seq<int>, scored: seq<Span>, regions: seq<Span>, i: nat)
    requires i < |points|
  {
    && Successive(regions) && (forall k :: 0 <= k < |regions| ==> regions[k].end <= points[i])
    && (forall t :: t < points[i] ==> (Covered(regions, t) <==> Covered(scored, t)))
    && (forall k :: 0 <= k < |regions| ==> Elementary(points, regions[k]))
  }

  /** What the next two points add. */
  lemma {:induction false} RegionNext(points: seq<int>, scored: seq<Span>, before: seq<Span>, i: nat, si: nat)
    requires Increasing(points) && Separate(scored) && Marks(points, scored) && i + 1 < |points|
    requires FoundUpTo(points, scored, before, i)
    requires si <= |scored| && (forall j :: 0 <= j < si ==> scored[j].end <= points[i])
    requires si < |scored| ==> points[i] < scored[si].end
    ensures var a, b := points[i], points[i + 1];
            FoundUpTo(points, scored,
                      if si < |scored| && scored[si].start <= a && b <= scored[si].end then before + [Span(a, b)] else before, i + 1)
  {
    var a, b := points[i], points[i + 1];
    var regions := if si < |scored| && scored[si].start <= a && b <= scored[si].end then before + [Span(a, b)] else before;
    NeighboursAreElementary(points, i);
    ElementaryIsWhole(points, scored, Span(a, b));
    CursorDecides(scored, a, b, si);
    hide Marks, Separate, Elementary, Covered;
    forall t | t < b ensures Covered(regions, t) <==> Covered(scored, t) {
      CoveredAppend(before, Span(a, b), t);
      if a <= t {
        CoverageIsUniform(scored, a, b, t);
        PastSpans(before, a, t);
      }
    }
  }

  lemma {:induction false} PastSpans(spans: seq<Span>, a: int, t: int)
    requires (forall k :: 0 <= k < |spans| ==> spans[k].end <= a) && a <= t
    ensures !Covered(spans, t)
  {
  }

  /** The regions between neighbouring points that lie in the scored spans. */
  method Regions(points: seq<int>, scored: seq<Span>) returns (regions: seq<Span>)
    requires Increasing(points) && Separate(scored) && Marks(points, scored)
    ensures Successive(regions) && forall t :: Covered(regions, t) <==> Covered(scored, t)
    ensures forall k :: 0 <= k < |regions| ==> Elementary(points, regions[k])
  {
    regions := [];
    var si := 0;
    if |points| == 0 {
      SomethingMarked(points, scored);
      return;
    }
    forall t | t < points[0] ensures !Covered(scored, t) { BelowPoints(points, scored, t); }
    hide Marks, Covered, Elementary;
    for i := 0 to |points| - 1
      invariant si <= |scored| && forall j :: 0 <= j < si ==> scored[j].end <= points[i]
      invariant FoundUpTo(points, scored, regions, i)
    {
      var a, b := points[i], points[i + 1];
      while si < |scored| && scored[si].end <= a
        invariant si <= |scored| && forall j :: 0 <= j < si ==> scored[j].end <= a
      {
        si := si + 1;
      }
      RegionNext(points, scored, regions, i, si);
      if si < |scored| && scored[si].start <= a && b <= scored[si].end {
        regions := regions + [Span(a, b)];
      }
    }
    forall t | points[|points| - 1] <= t ensures !Covered(scored, t) { AbovePoints(points, scored, t); }
  }

  lemma {:induction false} SomethingMarked(points: seq<int>, spans: seq<Span>)
    requires Marks(points, spans)
    ensures spans != [] ==> points != []
  {
    if spans != [] {
      assert spans[0].start in points;
    }
  }

  lemma {:induction false} BelowPoints(points: seq<int>, spans: seq<Span>, t: int)
    requires Increasing(points) && Marks(points, spans) && points != [] && t < points[0]
    ensures !Covered(spans, t)
  {
    forall j | 0 <= j < |spans| ensures t < spans[j].start {
      var k :| 0 <= k < |points| && points[k] == spans[j].start;
      assert points[0] <= points[k];
    }
  }

  lemma {:induction false} AbovePoints(points: seq<int>, spans: seq<Span>, t: int)
    requires Increasing(points) && Marks(points, spans) && points != [] && points[|points| - 1] <= t
    ensures !Covered(spans, t)
  {
    forall j | 0 <= j < |spans| ensures spans[j].end <= t {
      var k :| 0 <= k < |points| && points[k] == spans[j].end;
      assert points[k] <= points[|points| - 1];
    }
  }
}
