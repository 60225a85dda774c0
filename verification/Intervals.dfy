/** Half-open millisecond spans: union, subtraction and clipping keep exactly
    the milliseconds they should, in separated increasing spans. */
module Intervals {

  datatype Span = Span(start: int, end: int) {
    predicate Has(t: int) { start <= t < end }
  }

  function Max(x: int, y: int): int { if x < y then y else x }

  function Min(x: int, y: int): int { if x < y then x else y }

  ghost predicate Covered(spans: seq<Span>, t: int)
  {
    exists i :: 0 <= i < |spans| && spans[i].Has(t)
  }

  /** Non-empty spans in increasing order that do not even touch. */
  ghost predicate Separate(spans: seq<Span>)
  {
    && (forall i :: 0 <= i < |spans| ==> spans[i].start < spans[i].end)
    && (forall i, j :: 0 <= i < j < |spans| ==> spans[i].end < spans[j].start)
  }

  lemma {:induction false} CoveredAppend(spans: seq<Span>, x: Span, t: int)
    ensures Covered(spans + [x], t) <==> Covered(spans, t) || x.Has(t)
  {
    var r := spans + [x];
    if Covered(spans, t) {
      var i :| 0 <= i < |spans| && spans[i].Has(t);
      assert r[i].Has(t);
    }
    if x.Has(t) { assert r[|spans|].Has(t); }
  }

  // ---------------------------------------------------------------- sorting

  predicate Before(x: Span, y: Span)
  {
    x.start < y.start || (x.start == y.start && x.end <= y.end)
  }

  ghost predicate Ordered(spans: seq<Span>)
  {
    forall i, j :: 0 <= i < j < |spans| ==> Before(spans[i], spans[j])
  }

  function Insert(spans: seq<Span>, x: Span): (r: seq<Span>)
    requires Ordered(spans)
    ensures Ordered(r) && multiset(r) == multiset(spans) + multiset{x}
    ensures forall y :: y in r <==> y in spans || y == x
  {
    if spans == [] then [x]
    else if Before(x, spans[0]) then
      assert multiset([x] + spans) == multiset{x} + multiset(spans);
      [x] + spans
    else
      var rest := Insert(spans[1..], x);
      assert spans == [spans[0]] + spans[1..];
      assert forall y :: y in rest ==> Before(spans[0], y);
      [spans[0]] + rest
  }

  function Sorted(spans: seq<Span>): (r: seq<Span>)
    ensures Ordered(r) && multiset(r) == multiset(spans)
    ensures forall y :: y in r <==> y in spans
  {
    if spans == [] then []
    else
      assert spans == [spans[0]] + spans[1..];
      Insert(Sorted(spans[1..]), spans[0])
  }

  lemma {:induction false} SortedCovers(spans: seq<Span>, t: int)
    ensures Covered(Sorted(spans), t) <==> Covered(spans, t)
  {
    var r := Sorted(spans);
    if Covered(spans, t) {
      var i :| 0 <= i < |spans| && spans[i].Has(t);
      assert spans[i] in r;
    }
    if Covered(r, t) {
      var i :| 0 <= i < |r| && r[i].Has(t);
      assert r[i] in spans;
    }
  }

  // ---------------------------------------------------------------- union

  /** Widening the last span to a touching or overlapping one. */
  lemma {:induction false} CoveredWiden(spans: seq<Span>, x: Span, t: int)
    requires spans != []
    requires var last := spans[|spans| - 1]; last.start <= x.start <= last.end
    ensures var n := |spans| - 1;
            Covered(spans[n := Span(spans[n].start, Max(spans[n].end, x.end))], t) <==> Covered(spans, t) || x.Has(t)
  {
    var n := |spans| - 1;
    var r := spans[n := Span(spans[n].start, Max(spans[n].end, x.end))];
    if Covered(spans, t) {
      var i :| 0 <= i < |spans| && spans[i].Has(t);
      assert r[i].Has(t);
    }
    if x.Has(t) { assert r[n].Has(t); }
    if Covered(r, t) {
      var i :| 0 <= i < |r| && r[i].Has(t);
      assert i < n ==> spans[i].Has(t);
      assert i == n ==> spans[n].Has(t) || x.Has(t);
    }
  }

  /** Take the next span in order: widen the last one, start a new one, or skip. */
  method MergeNext(before: seq<Span>, x: Span) returns (merged: seq<Span>)
    requires Separate(before)
    requires before != [] ==> before[|before| - 1].start <= x.start
    ensures Separate(merged)
    ensures merged != [] ==> merged[|merged| - 1].start <= x.start
    ensures forall t :: Covered(merged, t) <==> Covered(before, t) || x.Has(t)
  {
    merged := before;
    if x.end <= x.start { return; }
    var n := |merged| - 1;
    if merged != [] && x.start <= merged[n].end {
      merged := merged[n := Span(merged[n].start, Max(merged[n].end, x.end))];
      forall t ensures Covered(merged, t) <==> Covered(before, t) || x.Has(t) { CoveredWiden(before, x, t); }
    } else {
      merged := merged + [x];
      forall t ensures Covered(merged, t) <==> Covered(before, t) || x.Has(t) { CoveredAppend(before, x, t); }
    }
  }

  method Union(intervals: seq<Span>) returns (merged: seq<Span>)
    ensures Separate(merged)
    ensures forall t :: Covered(merged, t) <==> Covered(intervals, t)
  {
    var sorted := Sorted(intervals);
    merged := [];
    for i := 0 to |sorted|
      invariant Separate(merged)
      invariant merged != [] && i < |sorted| ==> merged[|merged| - 1].start <= sorted[i].start
      invariant forall t :: Covered(merged, t) <==> Covered(sorted[..i], t)
    {
      ghost var before := merged;
      merged := MergeNext(merged, sorted[i]);
      assert sorted[..i + 1] == sorted[..i] + [sorted[i]];
      forall t ensures Covered(merged, t) <==> Covered(sorted[..i + 1], t) {
        CoveredAppend(sorted[..i], sorted[i], t);
      }
      assert i + 1 < |sorted| ==> Before(sorted[i], sorted[i + 1]);
    }
    assert sorted[..|sorted|] == sorted;
    forall t ensures Covered(merged, t) <==> Covered(intervals, t) { SortedCovers(intervals, t); }
  }

  /** Separated spans start and end exactly where coverage changes. */
  lemma {:induction false} EndpointsAreChanges(spans: seq<Span>, p: int)
    requires Separate(spans)
    ensures (exists i :: 0 <= i < |spans| && (spans[i].start == p || spans[i].end == p))
            <==> Covered(spans, p) != Covered(spans, p - 1)
  {
    if i :| 0 <= i < |spans| && spans[i].start == p {
      assert spans[i].Has(p);
      assert !Covered(spans, p - 1);
    } else if i :| 0 <= i < |spans| && spans[i].end == p {
      assert spans[i].Has(p - 1);
      assert !Covered(spans, p);
    } else {
      assert forall i :: 0 <= i < |spans| ==> (spans[i].Has(p) <==> spans[i].Has(p - 1));
      if i :| 0 <= i < |spans| && spans[i].Has(p) { assert Covered(spans, p - 1); }
    }
  }

  // ---------------------------------------------------------------- subtraction

  /** What is left of one base span after the first j holes, up to the cursor. */
  ghost predicate LeftOf(base: Span, holes: seq<Span>, j: nat, cursor: int, t: int)
    requires j <= |holes|
  {
    base.start <= t < Min(cursor, base.end) && !Covered(holes[..j], t)
  }

  lemma {:induction false} HoleSkipped(base: Span, holes: seq<Span>, j: nat, cursor: int, t: int)
    requires j < |holes| && base.start <= cursor && (holes[j].end <= cursor || holes[j].start >= base.end)
    requires cursor == base.start || holes[j].start > cursor
    ensures LeftOf(base, holes, j + 1, cursor, t) <==> LeftOf(base, holes, j, cursor, t)
  {
    assert holes[..j + 1] == holes[..j] + [holes[j]];
    CoveredAppend(holes[..j], holes[j], t);
  }

  lemma {:induction false} HoleCut(base: Span, holes: seq<Span>, j: nat, cursor: int, t: int)
    requires j < |holes| && base.start <= cursor < holes[j].end && holes[j].start < base.end
    requires holes[j].start < holes[j].end
    requires cursor == base.start || holes[j].start > cursor
    requires cursor <= t < base.end ==> !Covered(holes[..j], t)
    ensures LeftOf(base, holes, j + 1, holes[j].end, t)
            <==> LeftOf(base, holes, j, cursor, t) || Span(cursor, holes[j].start).Has(t)
  {
    assert holes[..j + 1] == holes[..j] + [holes[j]];
    CoveredAppend(holes[..j], holes[j], t);
  }

  method SubtractFrom(base: Span, holes: seq<Span>, before: seq<Span>) returns (out: seq<Span>)
    requires Separate(holes)
    ensures forall t :: Covered(out, t) <==> Covered(before, t) || (base.Has(t) && !Covered(holes, t))
    ensures Separate(before) && (forall i :: 0 <= i < |before| ==> before[i].end < base.start)
            ==> Separate(out) && forall i :: 0 <= i < |out| ==> out[i].end <= Max(base.start, base.end)
  {
    out := before;
    var cursor := base.start;
    ghost var tidy := Separate(before) && forall i :: 0 <= i < |before| ==> before[i].end < base.start;
    for j := 0 to |holes|
      invariant base.start <= cursor
      invariant cursor == base.start || forall k :: j <= k < |holes| ==> holes[k].start > cursor
      invariant forall t :: cursor <= t < base.end ==> !Covered(holes[..j], t)
      invariant forall t :: Covered(out, t) <==> Covered(before, t) || LeftOf(base, holes, j, cursor, t)
      invariant tidy ==> Separate(out) && forall i :: 0 <= i < |out| ==> out[i].end < cursor && out[i].end <= Max(base.start, base.end)
    {
      var hole := holes[j];
      ghost var was, from := out, cursor;
      assert holes[..j + 1] == holes[..j] + [hole];
      forall t {:trigger Covered(holes[..j + 1], t)} | cursor <= t < base.end && (hole.end <= t || base.end <= hole.start)
        ensures !Covered(holes[..j + 1], t)
      {
        CoveredAppend(holes[..j], hole, t);
      }
      if hole.end <= cursor || hole.start >= base.end {
        forall t ensures LeftOf(base, holes, j + 1, cursor, t) <==> LeftOf(base, holes, j, cursor, t) {
          HoleSkipped(base, holes, j, cursor, t);
        }
      } else {
        if hole.start > cursor { out := out + [Span(cursor, hole.start)]; }
        cursor := Max(cursor, hole.end);
        forall t ensures Covered(out, t) <==> Covered(before, t) || LeftOf(base, holes, j + 1, cursor, t) {
          CoveredAppend(was, Span(from, hole.start), t);
          HoleCut(base, holes, j, from, t);
        }
      }
    }
    assert holes[..|holes|] == holes;
    ghost var was := out;
    if cursor < base.end { out := out + [Span(cursor, base.end)]; }
    forall t ensures Covered(out, t) <==> Covered(before, t) || (base.Has(t) && !Covered(holes, t)) {
      CoveredAppend(was, Span(cursor, base.end), t);
    }
  }

  /** What the base spans cover and the holes do not. */
  method Subtract(base: seq<Span>, holes: seq<Span>) returns (out: seq<Span>)
    ensures forall t :: Covered(out, t) <==> Covered(base, t) && !Covered(holes, t)
    ensures Separate(base) ==> Separate(out)
  {
    out := [];
    var merged := Union(holes);
    for i := 0 to |base|
      invariant forall t :: Covered(out, t) <==> Covered(base[..i], t) && !Covered(holes, t)
      invariant Separate(base) ==> Separate(out) && forall j, k :: 0 <= j < |out| && i <= k < |base| ==> out[j].end < base[k].start
    {
      ghost var was := out;
      out := SubtractFrom(base[i], merged, out);
      assert base[..i + 1] == base[..i] + [base[i]];
      forall t ensures Covered(out, t) <==> Covered(base[..i + 1], t) && !Covered(holes, t) {
        CoveredAppend(base[..i], base[i], t);
      }
    }
    assert base[..|base|] == base;
  }

  // ---------------------------------------------------------------- clipping

  method Clip(spans: seq<Span>, window: Span) returns (r: seq<Span>)
    requires Separate(spans) && window.start < window.end
    ensures Separate(r)
    ensures forall t :: Covered(r, t) <==> Covered(spans, t) && window.Has(t)
    ensures forall i :: 0 <= i < |r| ==> window.start <= r[i].start && r[i].end <= window.end
  {
    r := [];
    for i := 0 to |spans|
      invariant Separate(r)
      invariant forall t :: Covered(r, t) <==> Covered(spans[..i], t) && window.Has(t)
      invariant forall j :: 0 <= j < |r| ==> window.start <= r[j].start && r[j].end <= window.end
      invariant forall j, k :: 0 <= j < |r| && i <= k < |spans| ==> r[j].end < spans[k].start
    {
      var x := spans[i];
      ghost var was := r;
      var cut := Span(Max(x.start, window.start), Min(x.end, window.end));
      if x.end > window.start && x.start < window.end {
        r := r + [cut];
      }
      assert spans[..i + 1] == spans[..i] + [x];
      forall t ensures Covered(r, t) <==> Covered(spans[..i + 1], t) && window.Has(t) {
        CoveredAppend(spans[..i], x, t);
        CoveredAppend(was, cut, t);
      }
    }
    assert spans[..|spans|] == spans;
  }
}
