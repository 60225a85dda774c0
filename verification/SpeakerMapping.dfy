/** The one-to-one speaker mapping with the largest total overlap, found by a
    table with an entry for each set of speakers used on the smaller side. */
module SpeakerMapping {
  import opened Outcomes

  type Speaker = string

  /** A reference speaker matched with a hypothesis speaker. */
  type Pair = (Speaker, Speaker)

  type Overlap = map<Pair, int>

  /** One table row: which small-side speakers are used, the total overlap, and
      the pairs behind it. */
  datatype Entry = Entry(mask: set<nat>, value: int, pairs: set<Pair>)

  function Gain(overlap: Overlap, pair: Pair): int
  {
    if pair in overlap then overlap[pair] else 0
  }

  predicate Distinct(speakers: seq<Speaker>)
  {
    forall i, j :: 0 <= i < j < |speakers| ==> speakers[i] != speakers[j]
  }

  /** No speaker of either side is matched twice. */
  predicate OneToOne(pairs: set<Pair>)
  {
    forall p, q :: p in pairs && q in pairs ==> (p.0 == q.0 <==> p.1 == q.1)
  }

  ghost predicate Among(pairs: set<Pair>, refs: seq<Speaker>, hyps: seq<Speaker>)
  {
    forall p :: p in pairs ==> p.0 in refs && p.1 in hyps
  }

  /** Total overlap of a set of pairs. */
  ghost function Weight(overlap: Overlap, pairs: set<Pair>): int
  {
    if pairs == {} then 0
    else
      var p :| p in pairs;
      Gain(overlap, p) + Weight(overlap, pairs - {p})
  }

  /** Any member may be summed last. */
  lemma {:induction false} WeightSplits(overlap: Overlap, pairs: set<Pair>, p: Pair)
    requires p in pairs
    ensures Weight(overlap, pairs) == Gain(overlap, p) + Weight(overlap, pairs - {p})
    decreases pairs
  {
    var q :| q in pairs && Weight(overlap, pairs) == Gain(overlap, q) + Weight(overlap, pairs - {q});
    if q != p {
      WeightSplits(overlap, pairs - {q}, p);
      WeightSplits(overlap, pairs - {p}, q);
      assert pairs - {q} - {p} == pairs - {p} - {q};
    }
  }

  lemma {:induction false} WeightAdds(overlap: Overlap, pairs: set<Pair>, p: Pair)
    requires p !in pairs
    ensures Weight(overlap, pairs + {p}) == Weight(overlap, pairs) + Gain(overlap, p)
  {
    WeightSplits(overlap, pairs + {p}, p);
    assert pairs + {p} - {p} == pairs;
  }

  /** The search: which side is large, and the overlap table. */
  datatype Search = Search(small: seq<Speaker>, large: seq<Speaker>, swap: bool, overlap: Overlap) {
    predicate Valid() { Distinct(small) && Distinct(large) }

    function PairOf(i: nat, l: nat): Pair
      requires i < |small| && l < |large|
    {
      if swap then (large[l], small[i]) else (small[i], large[l])
    }

    /** The small-side and the large-side speaker of a pair. */
    function SmallOf(p: Pair): Speaker { if swap then p.1 else p.0 }

    function LargeOf(p: Pair): Speaker { if swap then p.0 else p.1 }
  }

  /** The pairs use only the first k large speakers. */
  ghost predicate Within(s: Search, pairs: set<Pair>, k: nat)
    requires k <= |s.large|
  {
    forall p :: p in pairs ==> s.SmallOf(p) in s.small && s.LargeOf(p) in s.large[..k]
  }

  /** The mask names every small speaker the pairs use. */
  ghost predicate Masks(s: Search, mask: set<nat>, pairs: set<Pair>)
  {
    && (forall i :: i in mask ==> i < |s.small|)
    && (forall p :: p in pairs ==> exists i :: i in mask && s.small[i] == s.SmallOf(p))
  }

  /** The entry is a real one-to-one mapping and its mask and value are true. */
  ghost predicate Sound(s: Search, e: Entry, k: nat)
    requires k <= |s.large|
  {
    && OneToOne(e.pairs) && Within(s, e.pairs, k) && Masks(s, e.mask, e.pairs)
    && (forall p :: p in e.pairs ==> Gain(s.overlap, p) > 0)
    && e.value == Weight(s.overlap, e.pairs)
  }

  ghost predicate AllSound(s: Search, table: seq<Entry>, k: nat)
    requires k <= |s.large|
  {
    forall j :: 0 <= j < |table| ==> Sound(s, table[j], k)
  }

  /** An entry uses no more small speakers than these pairs and is worth as much. */
  ghost predicate Beats(s: Search, e: Entry, pairs: set<Pair>)
  {
    && (forall i :: i in e.mask ==> i < |s.small| && exists p :: p in pairs && s.SmallOf(p) == s.small[i])
    && e.value >= Weight(s.overlap, pairs)
  }

  ghost predicate Beaten(s: Search, table: seq<Entry>, pairs: set<Pair>)
  {
    exists j :: 0 <= j < |table| && Beats(s, table[j], pairs)
  }

  /** Every one-to-one mapping of the first k large speakers is beaten. */
  ghost predicate Complete(s: Search, table: seq<Entry>, k: nat)
    requires k <= |s.large|
  {
    forall pairs :: OneToOne(pairs) && Within(s, pairs, k) ==> Beaten(s, table, pairs)
  }

  /** Some entry has this mask and at least this value. */
  ghost predicate Offers(table: seq<Entry>, mask: set<nat>, value: int)
  {
    exists j :: 0 <= j < |table| && table[j].mask == mask && table[j].value >= value
  }

  /** Keep the better of a candidate and the entry already under its mask. */
  function Improve(table: seq<Entry>, e: Entry): (r: seq<Entry>)
    ensures forall j :: 0 <= j < |r| ==> r[j] in table || r[j] == e
  {
    if table == [] then [e]
    else if table[0].mask == e.mask then [if e.value > table[0].value then e else table[0]] + table[1..]
    else [table[0]] + Improve(table[1..], e)
  }

  lemma {:induction false} ImproveOffers(table: seq<Entry>, e: Entry, mask: set<nat>, value: int)
    requires Offers(table, mask, value) || (mask == e.mask && value <= e.value)
    ensures Offers(Improve(table, e), mask, value)
  {
    var r := Improve(table, e);
    if table == [] {
      assert r[0] == e;
    } else if table[0].mask == mask && table[0].value >= value {
      assert r[0].mask == mask && r[0].value >= value;
    } else if table[0].mask == e.mask {
      if mask == e.mask && value <= e.value {
        assert r[0].mask == mask && r[0].value >= value;
      } else {
        var j :| 0 <= j < |table| && table[j].mask == mask && table[j].value >= value;
        assert j > 0 && r[j] == table[1..][j - 1] == table[j];
      }
    } else {
      if !(mask == e.mask && value <= e.value) {
        var j :| 0 <= j < |table| && table[j].mask == mask && table[j].value >= value;
        assert table[1..][j - 1] == table[j];
      }
      ImproveOffers(table[1..], e, mask, value);
      var rest := Improve(table[1..], e);
      var j :| 0 <= j < |rest| && rest[j].mask == mask && rest[j].value >= value;
      assert r[j + 1] == rest[j];
    }
  }

  /** Everything the old table offers, the improved one offers. */
  ghost predicate Covers(before: seq<Entry>, table: seq<Entry>)
  {
    forall mask, value :: Offers(before, mask, value) ==> Offers(table, mask, value)
  }

  function Extend(s: Search, e: Entry, i: nat, l: nat): Entry
    requires i < |s.small| && l < |s.large|
  {
    Entry(e.mask + {i}, e.value + Gain(s.overlap, s.PairOf(i, l)), e.pairs + {s.PairOf(i, l)})
  }

  // The new pair shares no speaker with the old ones.
  lemma {:induction false} FreshPair(s: Search, e: Entry, i: nat, l: nat, q: Pair)
    requires s.Valid() && l < |s.large| && Within(s, e.pairs, l) && Masks(s, e.mask, e.pairs)
    requires i < |s.small| && i !in e.mask && q in e.pairs
    ensures s.LargeOf(q) != s.large[l] && s.SmallOf(q) != s.small[i]
  {
    var k :| 0 <= k < l && s.large[k] == s.LargeOf(q);
    var i' :| i' in e.mask && s.small[i'] == s.SmallOf(q);
  }

  lemma {:induction false} ExtendMasks(s: Search, e: Entry, i: nat, l: nat)
    requires l < |s.large| && i < |s.small| && Masks(s, e.mask, e.pairs)
    ensures Masks(s, e.mask + {i}, e.pairs + {s.PairOf(i, l)})
  {
    var mask := e.mask + {i};
    forall q | q in e.pairs + {s.PairOf(i, l)} ensures exists k :: k in mask && s.small[k] == s.SmallOf(q) {
      if q in e.pairs {
        var k :| k in e.mask && s.small[k] == s.SmallOf(q);
        assert k in mask;
      } else {
        assert i in mask;
      }
    }
  }

  lemma {:induction false} ExtendWithin(s: Search, e: Entry, i: nat, l: nat)
    requires l < |s.large| && i < |s.small| && Within(s, e.pairs, l)
    ensures Within(s, e.pairs + {s.PairOf(i, l)}, l + 1)
  {
    assert s.large[..l + 1] == s.large[..l] + [s.large[l]];
  }

  lemma {:induction false} ExtendOneToOne(s: Search, e: Entry, i: nat, l: nat)
    requires s.Valid() && l < |s.large| && Within(s, e.pairs, l) && Masks(s, e.mask, e.pairs)
    requires i < |s.small| && i !in e.mask && OneToOne(e.pairs)
    ensures OneToOne(e.pairs + {s.PairOf(i, l)}) && s.PairOf(i, l) !in e.pairs
  {
    forall q | q in e.pairs ensures q.0 != s.PairOf(i, l).0 && q.1 != s.PairOf(i, l).1 {
      FreshPair(s, e, i, l, q);
    }
  }

  lemma {:induction false} ExtendSound(s: Search, e: Entry, i: nat, l: nat)
    requires s.Valid() && l < |s.large| && Sound(s, e, l)
    requires i < |s.small| && i !in e.mask && Gain(s.overlap, s.PairOf(i, l)) > 0
    ensures Sound(s, Extend(s, e, i, l), l + 1)
  {
    hide Masks, Within, OneToOne;
    ExtendOneToOne(s, e, i, l);
    ExtendWithin(s, e, i, l);
    ExtendMasks(s, e, i, l);
    WeightAdds(s.overlap, e.pairs, s.PairOf(i, l));
  }

  lemma {:induction false} SoundGrows(s: Search, e: Entry, l: nat)
    requires l < |s.large| && Sound(s, e, l)
    ensures Sound(s, e, l + 1)
  {
    assert s.large[..l + 1] == s.large[..l] + [s.large[l]];
  }

  /** What one large speaker's pass leaves behind. */
  ghost predicate Tried(s: Search, e: Entry, l: nat, i: nat, table: seq<Entry>)
    requires l < |s.large|
  {
    i < |s.small| && i !in e.mask && Gain(s.overlap, s.PairOf(i, l)) > 0 ==>
      Offers(table, e.mask + {i}, e.value + Gain(s.overlap, s.PairOf(i, l)))
  }

  lemma {:induction false} BeatsFromOffer(s: Search, table: seq<Entry>, mask: set<nat>, value: int, pairs: set<Pair>)
    requires Offers(table, mask, value) && value >= Weight(s.overlap, pairs)
    requires forall i :: i in mask ==> i < |s.small| && exists p :: p in pairs && s.SmallOf(p) == s.small[i]
    ensures Beaten(s, table, pairs)
  {
    var j :| 0 <= j < |table| && table[j].mask == mask && table[j].value >= value;
    assert Beats(s, table[j], pairs);
  }

  /** A mapping that uses large speaker l extends one that does not. */
  lemma {:induction false} BeatsWith(s: Search, best: seq<Entry>, next: seq<Entry>, l: nat, pairs: set<Pair>, p: Pair)
    requires s.Valid() && l < |s.large| && Complete(s, best, l)
    requires forall j :: 0 <= j < |best| ==> Offers(next, best[j].mask, best[j].value)
    requires forall j, i :: 0 <= j < |best| ==> Tried(s, best[j], l, i, next)
    requires OneToOne(pairs) && Within(s, pairs, l + 1) && p in pairs && s.LargeOf(p) == s.large[l]
    ensures Beaten(s, next, pairs)
  {
    var rest := pairs - {p};
    assert s.large[..l + 1] == s.large[..l] + [s.large[l]];
    assert Within(s, rest, l);
    var j :| 0 <= j < |best| && Beats(s, best[j], rest);
    var i :| 0 <= i < |s.small| && s.small[i] == s.SmallOf(p);
    assert s.PairOf(i, l) == p;
    WeightSplits(s.overlap, pairs, p);
    assert i !in best[j].mask;
    assert Tried(s, best[j], l, i, next);
    if Gain(s.overlap, p) > 0 {
      var mask := best[j].mask + {i};
      forall k | k in mask ensures k < |s.small| && exists q :: q in pairs && s.SmallOf(q) == s.small[k] {
        if k in best[j].mask {
          var q :| q in rest && s.SmallOf(q) == s.small[k];
          assert q in pairs;
        }
      }
      BeatsFromOffer(s, next, mask, best[j].value + Gain(s.overlap, p), pairs);
    } else {
      BeatsFromOffer(s, next, best[j].mask, best[j].value, pairs);
    }
  }

  lemma {:induction false} CompleteStep(s: Search, best: seq<Entry>, next: seq<Entry>, l: nat)
    requires s.Valid() && l < |s.large| && Complete(s, best, l)
    requires forall j :: 0 <= j < |best| ==> Offers(next, best[j].mask, best[j].value)
    requires forall j, i :: 0 <= j < |best| ==> Tried(s, best[j], l, i, next)
    ensures Complete(s, next, l + 1)
  {
    forall pairs | OneToOne(pairs) && Within(s, pairs, l + 1)
      ensures Beaten(s, next, pairs)
    {
      if p :| p in pairs && s.LargeOf(p) == s.large[l] {
        BeatsWith(s, best, next, l, pairs, p);
      } else {
        assert s.large[..l + 1] == s.large[..l] + [s.large[l]];
        assert Within(s, pairs, l);
        var j :| 0 <= j < |best| && Beats(s, best[j], pairs);
        BeatsFromOffer(s, next, best[j].mask, best[j].value, pairs);
      }
    }
  }

  /** Offer one entry, extended by every free small speaker, to the next table. */
  method TryAll(s: Search, e: Entry, l: nat, table: seq<Entry>) returns (next: seq<Entry>)
    requires s.Valid() && l < |s.large| && Sound(s, e, l) && AllSound(s, table, l + 1)
    ensures AllSound(s, next, l + 1) && Covers(table, next)
    ensures forall i :: Tried(s, e, l, i, next)
  {
    hide Sound;
    next := table;
    for i := 0 to |s.small|
      invariant AllSound(s, next, l + 1) && Covers(table, next)
      invariant forall k :: 0 <= k < i ==> Tried(s, e, l, k, next)
    {
      if i !in e.mask && Gain(s.overlap, s.PairOf(i, l)) > 0 {
        ghost var before := next;
        var candidate := Extend(s, e, i, l);
        ExtendSound(s, e, i, l);
        next := Improve(next, candidate);
        forall mask, value | Offers(before, mask, value) || (mask == candidate.mask && value <= candidate.value)
          ensures Offers(next, mask, value)
        {
          ImproveOffers(before, candidate, mask, value);
        }
        assert Offers(next, candidate.mask, candidate.value);
        forall k | 0 <= k <= i ensures Tried(s, e, l, k, next) {
          if k < i { assert Tried(s, e, l, k, before); }
        }
      }
    }
  }

  /** One large speaker's pass over the table. */
  method Pass(s: Search, best: seq<Entry>, l: nat) returns (next: seq<Entry>)
    requires s.Valid() && l < |s.large| && AllSound(s, best, l) && Complete(s, best, l)
    ensures AllSound(s, next, l + 1) && Complete(s, next, l + 1)
  {
    hide Sound, Complete;
    next := best;
    forall j | 0 <= j < |best| ensures Sound(s, best[j], l + 1) { SoundGrows(s, best[j], l); }
    for j := 0 to |best|
      invariant AllSound(s, next, l + 1) && Covers(best, next)
      invariant forall k, i :: 0 <= k < j ==> Tried(s, best[k], l, i, next)
    {
      ghost var before := next;
      next := TryAll(s, best[j], l, next);
      forall k, i | 0 <= k < j ensures Tried(s, best[k], l, i, next) {
        assert Tried(s, best[k], l, i, before);
      }
    }
    assert forall j :: 0 <= j < |best| ==> Offers(best, best[j].mask, best[j].value);
    CompleteStep(s, best, next, l);
  }

  method Largest(table: seq<Entry>) returns (e: Entry)
    requires table != []
    ensures e in table && forall j :: 0 <= j < |table| ==> table[j].value <= e.value
  {
    e := table[0];
    for j := 1 to |table|
      invariant e in table && forall k :: 0 <= k < j ==> table[k].value <= e.value
    {
      if table[j].value > e.value { e := table[j]; }
    }
  }

  /** The table after every large speaker holds a best one-to-one mapping. */
  method BestEntry(s: Search) returns (e: Entry)
    requires s.Valid()
    ensures Sound(s, e, |s.large|)
    ensures forall pairs :: OneToOne(pairs) && Within(s, pairs, |s.large|) ==> Weight(s.overlap, pairs) <= e.value
  {
    hide Sound, Complete, Beats, Within, OneToOne, Weight;
    var best := [Entry({}, 0, {})];
    StartTable(s, best);
    for l := 0 to |s.large|
      invariant AllSound(s, best, l) && Complete(s, best, l)
    {
      best := Pass(s, best, l);
    }
    CompleteTable(s, best);
    e := Largest(best);
  }

  lemma {:induction false} StartTable(s: Search, table: seq<Entry>)
    requires table == [Entry({}, 0, {})]
    ensures AllSound(s, table, 0) && Complete(s, table, 0)
  {
    forall pairs | OneToOne(pairs) && Within(s, pairs, 0) ensures Beaten(s, table, pairs) {
      assert pairs == {};
      assert Beats(s, table[0], pairs);
    }
  }

  /** Some entry is worth as much as any one-to-one mapping. */
  lemma {:induction false} CompleteTable(s: Search, table: seq<Entry>)
    requires Complete(s, table, |s.large|)
    ensures table != []
    ensures forall pairs :: OneToOne(pairs) && Within(s, pairs, |s.large|) ==>
              exists j :: 0 <= j < |table| && Weight(s.overlap, pairs) <= table[j].value
  {
    assert Within(s, {}, |s.large|) && OneToOne({});
    assert Beaten(s, table, {});
    hide Within, OneToOne, Weight;
    forall pairs | OneToOne(pairs) && Within(s, pairs, |s.large|)
      ensures exists j :: 0 <= j < |table| && Weight(s.overlap, pairs) <= table[j].value
    {
      var j :| 0 <= j < |table| && Beats(s, table[j], pairs);
    }
  }

  lemma {:induction false} AsMap(pairs: set<Pair>, mapping: map<Speaker, Speaker>)
    requires OneToOne(pairs)
    requires forall p :: p in pairs ==> p.0 in mapping && mapping[p.0] == p.1
    requires forall r :: r in mapping ==> (r, mapping[r]) in pairs
    ensures mapping.Items == pairs
  {
    forall p | p in pairs ensures p in mapping.Items { assert p == (p.0, mapping[p.0]); }
    forall p | p in mapping.Items ensures p in pairs { assert p == (p.0, mapping[p.0]); }
  }

  /** A one-to-one mapping of reference to hypothesis speakers whose total
      overlap no other has; refused when both sides have more than 16 speakers. */
  method OptimalMapping(refs: seq<Speaker>, hyps: seq<Speaker>, overlap: Overlap)
    returns (r: Result<(map<Speaker, Speaker>, int)>)
    requires Distinct(refs) && Distinct(hyps)
    ensures r.Err? <==> |refs| > 16 && |hyps| > 16
    ensures r.Ok? ==>
              var (mapping, value) := r.value;
              && OneToOne(mapping.Items) && Among(mapping.Items, refs, hyps)
              && (forall p :: p in mapping.Items ==> Gain(overlap, p) > 0)
              && value == Weight(overlap, mapping.Items)
              && forall pairs :: OneToOne(pairs) && Among(pairs, refs, hyps) ==> Weight(overlap, pairs) <= value
  {
    var swap := |hyps| < |refs|;
    var s := if swap then Search(hyps, refs, true, overlap) else Search(refs, hyps, false, overlap);
    if |s.small| > 16 {
      return Err("more than 16 speakers on both sides; exact mapping search refused");
    }
    var e := BestEntry(s);
    assert s.large[..|s.large|] == s.large;
    forall pairs | OneToOne(pairs) && Among(pairs, refs, hyps) ensures Weight(overlap, pairs) <= e.value {
      assert Within(s, pairs, |s.large|);
    }
    var mapping := map p | p in e.pairs :: p.0 := p.1;
    AsMap(e.pairs, mapping);
    return Ok((mapping, e.value));
  }
}
