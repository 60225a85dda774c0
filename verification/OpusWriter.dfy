/** The Ogg Opus writer: re-blocking into frames and pages, and the closing tail
    that lets a decoder recover the exact length. */
module OpusWriter {
  import opened OpusTrack

  /** Frame i of the input. */
  ghost predicate Blocked(frames: seq<seq<Sample>>, input: seq<Sample>, size: nat)
  {
    forall i :: 0 <= i < |frames| ==> BlockAt(frames, input, size, i)
  }

  ghost predicate BlockAt(frames: seq<seq<Sample>>, input: seq<Sample>, size: nat, i: nat)
    requires i < |frames|
  {
    (i + 1) * size <= |input| && |frames[i]| == size && frames[i] == input[i * size..(i + 1) * size]
  }

  lemma {:induction false} BlockedAppend(frames: seq<seq<Sample>>, input: seq<Sample>, size: nat, f: seq<Sample>)
    requires Blocked(frames, input, size) && |f| == size && (|frames| + 1) * size <= |input|
    requires (|frames| + 1) * size == |frames| * size + size
    requires f == input[|frames| * size..(|frames| + 1) * size]
    ensures Blocked(frames + [f], input, size)
  {
    forall i | 0 <= i < |frames + [f]| ensures BlockAt(frames + [f], input, size, i) {
      if i < |frames| { assert BlockAt(frames, input, size, i); }
    }
  }

  lemma {:induction false} BlockedGrows(frames: seq<seq<Sample>>, input: seq<Sample>, more: seq<Sample>, size: nat)
    requires Blocked(frames, input, size)
    ensures Blocked(frames, input + more, size)
  {
    forall i | 0 <= i < |frames| ensures BlockAt(frames, input + more, size, i) {
      assert BlockAt(frames, input, size, i);
      assert i * size <= (i + 1) * size;
    }
  }

  /** Page k closes frame (k + 1) * perPage. */
  ghost predicate Paged(pages: seq<Page>, perPage: nat)
  {
    forall k :: 0 <= k < |pages| ==> |pages[k].frames| == perPage && pages[k].granule == (k + 1) * perPage * FRAME_TICKS
  }

  lemma {:induction false} PagedCount(pages: seq<Page>, perPage: nat)
    requires Paged(pages, perPage)
    ensures |Frames(pages)| == |pages| * perPage
  {
    if pages != [] {
      PagedCount(pages[..|pages| - 1], perPage);
      assert |pages| * perPage == (|pages| - 1) * perPage + perPage;
    }
  }

  lemma {:induction false} FramesAppend(pages: seq<Page>, p: Page)
    ensures Frames(pages + [p]) == Frames(pages) + p.frames
  {
    assert (pages + [p])[..|pages|] == pages;
  }

  /** Samples as 48 kHz ticks. */
  function Ticks(rate: nat, samples: nat): nat
    requires Supported(rate)
  {
    samples * TicksPerSample(rate)
  }

  /** The writer between pushes: its output is a function of the samples so far,
      whatever the push sizes were. */
  datatype Layout = Layout(pages: seq<Page>, open: seq<seq<Sample>>, pending: seq<Sample>)

  ghost predicate Laid(l: Layout, input: seq<Sample>, size: nat, perPage: nat)
  {
    var frames := Frames(l.pages) + l.open;
    && size > 0 && Paged(l.pages, perPage) && |l.open| < perPage
    && |frames| * size <= |input| && l.pending == input[|frames| * size..]
    && Blocked(frames, input, size)
  }

  /** Take the oldest pending frame as the next packet. */
  function TakeFrame(l: Layout, size: nat, perPage: nat, granule: nat): Layout
    requires size <= |l.pending|
  {
    var frames := l.open + [l.pending[..size]];
    if |l.open| + 1 >= perPage then Layout(l.pages + [Page(frames, granule)], [], l.pending[size..])
    else Layout(l.pages, frames, l.pending[size..])
  }

  lemma {:induction false} TakeFrameFrames(l: Layout, size: nat, perPage: nat, granule: nat)
    requires size <= |l.pending|
    ensures var r := TakeFrame(l, size, perPage, granule);
            Frames(r.pages) + r.open == Frames(l.pages) + l.open + [l.pending[..size]] && r.pending == l.pending[size..]
  {
    var before, f := Frames(l.pages), [l.pending[..size]];
    FramesAppend(l.pages, Page(l.open + f, granule));
    assert before + (l.open + f) == before + l.open + f;
    hide Frames;
    var r := TakeFrame(l, size, perPage, granule);
    assert r.open == [] ==> Frames(r.pages) + r.open == Frames(r.pages);
  }

  lemma {:induction false} TakeFramePaged(l: Layout, size: nat, perPage: nat)
    requires size <= |l.pending| && Paged(l.pages, perPage) && |l.open| < perPage
    ensures var r := TakeFrame(l, size, perPage, (|Frames(l.pages)| + |l.open| + 1) * FRAME_TICKS);
            Paged(r.pages, perPage) && |r.open| < perPage
  {
    PagedCount(l.pages, perPage);
    if |l.open| + 1 == perPage {
      assert |l.pages| * perPage + perPage == (|l.pages| + 1) * perPage;
    }
  }

  lemma {:induction false} TakeFrameLaid(l: Layout, input: seq<Sample>, size: nat, perPage: nat)
    requires Laid(l, input, size, perPage) && size <= |l.pending|
    ensures var n := |Frames(l.pages)| + |l.open|;
            var r := TakeFrame(l, size, perPage, (n + 1) * FRAME_TICKS);
            && Laid(r, input, size, perPage) && |Frames(r.pages)| + |r.open| == n + 1
  {
    hide Blocked, Paged, Frames, TakeFrame;
    var frames := Frames(l.pages) + l.open;
    var n := |frames|;
    TakeFrameFrames(l, size, perPage, (n + 1) * FRAME_TICKS);
    TakeFramePaged(l, size, perPage);
    assert (n + 1) * size == n * size + size;
    SplitRest(input, n * size, size);
    BlockedAppend(frames, input, size, l.pending[..size]);
  }

  lemma {:induction false} SplitRest(input: seq<Sample>, from: nat, size: nat)
    requires from + size <= |input|
    ensures input[from..][..size] == input[from..from + size] && input[from..][size..] == input[from + size..]
  {
  }

  lemma {:induction false} LaidGrows(l: Layout, input: seq<Sample>, more: seq<Sample>, size: nat, perPage: nat)
    requires Laid(l, input, size, perPage)
    ensures Laid(l.(pending := l.pending + more), input + more, size, perPage)
  {
    BlockedGrows(Frames(l.pages) + l.open, input, more, size);
  }

  lemma {:induction false} PageSlice(pages: seq<Page>, perPage: nat, k: nat)
    requires Paged(pages, perPage) && k < |pages|
    ensures |Frames(pages)| == |pages| * perPage && (k + 1) * perPage <= |pages| * perPage && k * perPage <= (k + 1) * perPage
    ensures Frames(pages)[k * perPage..(k + 1) * perPage] == pages[k].frames
  {
    var before := pages[..|pages| - 1];
    PagedCount(pages, perPage);
    PagedCount(before, perPage);
    assert |pages| * perPage == |before| * perPage + perPage;
    assert (k + 1) * perPage == k * perPage + perPage;
    AtLeastOneMore(k, |pages|, perPage);
    if k < |before| {
      PageSlice(before, perPage, k);
      assert Frames(pages)[..|before| * perPage] == Frames(before);
    }
  }

  // Division with remainder is unique.
  lemma {:induction false} SameQuotient(a: nat, b: nat, size: nat, x: nat, y: nat)
    requires a * size + x == b * size + y && x < size && y < size
    ensures a == b && x == y
  {
    AtLeastOneMore(a, b, size);
    AtLeastOneMore(b, a, size);
  }

  lemma {:induction false} AtLeastOneMore(a: nat, b: nat, size: nat)
    ensures a < b ==> a * size + size <= b * size
  {
    if a < b { assert (a + 1) * size <= b * size; }
  }

  /** The layout depends only on the samples: any split into pushes gives the
      same pages, the same open packets and the same remainder. */
  lemma {:induction false} LayoutIsUnique(a: Layout, b: Layout, input: seq<Sample>, size: nat, perPage: nat)
    requires Laid(a, input, size, perPage) && Laid(b, input, size, perPage)
    requires |a.pending| < size && |b.pending| < size
    ensures a == b
  {
    SameFrames(a, b, input, size, perPage);
    SamePages(a, b, perPage);
  }

  lemma {:induction false} SameFrames(a: Layout, b: Layout, input: seq<Sample>, size: nat, perPage: nat)
    requires Laid(a, input, size, perPage) && Laid(b, input, size, perPage)
    requires |a.pending| < size && |b.pending| < size
    ensures Frames(a.pages) + a.open == Frames(b.pages) + b.open && a.pending == b.pending
  {
    hide Frames, Paged;
    var fa, fb := Frames(a.pages) + a.open, Frames(b.pages) + b.open;
    SameQuotient(|fa|, |fb|, size, |a.pending|, |b.pending|);
    forall i | 0 <= i < |fa| ensures fa[i] == fb[i] {
      assert BlockAt(fa, input, size, i) && BlockAt(fb, input, size, i);
    }
  }

  lemma {:induction false} SamePages(a: Layout, b: Layout, perPage: nat)
    requires Paged(a.pages, perPage) && Paged(b.pages, perPage) && |a.open| < perPage && |b.open| < perPage
    requires Frames(a.pages) + a.open == Frames(b.pages) + b.open
    ensures a.pages == b.pages && a.open == b.open
  {
    var all := Frames(a.pages) + a.open;
    PagedCount(a.pages, perPage);
    PagedCount(b.pages, perPage);
    SameQuotient(|a.pages|, |b.pages|, perPage, |a.open|, |b.open|);
    assert a.open == all[|all| - |a.open|..] == b.open;
    assert Frames(a.pages) == all[..|all| - |a.open|] == Frames(b.pages);
    forall k | 0 <= k < |a.pages| ensures a.pages[k] == b.pages[k] {
      SamePage(a.pages, b.pages, perPage, k);
    }
  }

  lemma {:induction false} SamePage(a: seq<Page>, b: seq<Page>, perPage: nat, k: nat)
    requires Paged(a, perPage) && Paged(b, perPage) && k < |a| == |b| && Frames(a) == Frames(b)
    ensures a[k].frames == b[k].frames
  {
    hide Frames;
    PageSlice(a, perPage, k);
    PageSlice(b, perPage, k);
  }

  // ---------------------------------------------------------------- the finished track

  /** Every frame of the input and its padding, enough of it for the decoder's
      delay, and a final granule that names the true length. */
  ghost predicate Complete(t: Track, input: seq<Sample>, lookahead: nat)
  {
    var size, frames := FrameSamples(t.rate), Frames(t.pages);
    && Supported(t.rate) && frames != []
    && t.preSkip == Ticks(t.rate, lookahead)
    && |input| + lookahead <= |frames| * size
    && Blocked(frames, input + Zeros(|frames| * size - |input|), size)
    && LastGranule(Packets(t.pages)) == Ticks(t.rate, lookahead + |input|)
    && (|frames| - 1) * FRAME_TICKS <= LastGranule(Packets(t.pages))
    && forall j, k :: 0 <= j < k < |t.pages| ==> t.pages[j].granule <= t.pages[k].granule
  }

  lemma {:induction false} LastGranuleBound(pages: seq<Page>, bound: nat)
    requires forall k :: 0 <= k < |pages| ==> pages[k].granule <= bound
    ensures forall k :: 0 <= k < |Packets(pages)| ==> Packets(pages)[k].granule <= bound
  {
    if pages != [] { LastGranuleBound(pages[..|pages| - 1], bound); }
  }

  lemma {:induction false} LastGranuleReached(packets: seq<Packet>, bound: nat)
    requires forall k :: 0 <= k < |packets| ==> packets[k].granule <= bound
    ensures LastGranule(packets) <= bound
    ensures packets != [] && packets[|packets| - 1].granule == bound ==> LastGranule(packets) == bound
  {
    if packets != [] { LastGranuleReached(packets[..|packets| - 1], bound); }
  }

  lemma {:induction false} LastPageGranule(pages: seq<Page>)
    requires pages != [] && pages[|pages| - 1].frames != []
    requires forall k :: 0 <= k < |pages| ==> pages[k].granule <= pages[|pages| - 1].granule
    ensures LastGranule(Packets(pages)) == pages[|pages| - 1].granule
  {
    var last := pages[|pages| - 1];
    LastGranuleBound(pages, last.granule);
    LastGranuleReached(Packets(pages), last.granule);
    var ps := Packets(pages);
    assert ps[|ps| - 1] == PagePackets(last)[|last.frames| - 1];
  }

  lemma {:induction false} ByRate(rate: nat, samples: nat)
    requires Supported(rate)
    ensures samples * TicksPerSample(rate) * rate / GRANULE_RATE == samples
  {
    assert samples * TicksPerSample(rate) * rate == samples * GRANULE_RATE;
  }

  lemma {:induction false} DecodedLength(decode: Decoder, packets: seq<Packet>, size: nat)
    requires forall ps: seq<Packet> :: ps != [] ==> |decode(ps)| == size
    ensures |Decoded(decode, packets)| == |packets| * size
  {
    if packets != [] {
      DecodedLength(decode, packets[..|packets| - 1], size);
      assert |packets| * size == (|packets| - 1) * size + size;
    }
  }

  /** A finished track decoded at its own rate has exactly its input's length. */
  lemma {:induction false} FinishedTrackLength(decode: Decoder, t: Track, input: seq<Sample>, lookahead: nat)
    requires Complete(t, input, lookahead)
    requires forall ps: seq<Packet> :: ps != [] ==> |decode(ps)| == FrameSamples(t.rate)
    ensures |Playback(decode, t, t.rate)| == |input|
  {
    var ticks := TicksPerSample(t.rate);
    PacketsCount(t.pages);
    DecodedLength(decode, Packets(t.pages), FrameSamples(t.rate));
    ByRate(t.rate, lookahead);
    assert (lookahead + |input|) * ticks - lookahead * ticks == |input| * ticks;
    ByRate(t.rate, |input|);
  }

  /** A track torn after k whole pages plays everything those pages hold, less
      the decoder's delay. */
  lemma {:induction false} TornTrackLength(decode: Decoder, rate: nat, lookahead: nat, pages: seq<Page>, perPage: nat)
    requires Supported(rate) && Paged(pages, perPage) && perPage > 0
    requires forall ps: seq<Packet> :: ps != [] ==> |decode(ps)| == FrameSamples(rate)
    ensures var held := |pages| * perPage * FrameSamples(rate);
            |Playback(decode, Track(rate, Ticks(rate, lookahead), pages), rate)|
            == if held < lookahead then 0 else held - lookahead
  {
    var size, ticks, n := FrameSamples(rate), TicksPerSample(rate), |pages| * perPage;
    PagedCount(pages, perPage);
    PacketsCount(pages);
    DecodedLength(decode, Packets(pages), size);
    TornGranule(pages, perPage);
    ByRate(rate, lookahead);
    TornTicks(rate, n, lookahead);
    hide Decoded, LastGranule, Packets, Paged, TicksPerSample;
  }

  // The granule of n whole frames leaves what the frames hold after the delay.
  lemma {:induction false} TornTicks(rate: nat, n: nat, lookahead: nat)
    requires Supported(rate)
    ensures var ticks, held := TicksPerSample(rate), n * FrameSamples(rate);
            && (lookahead <= held ==>
                  && lookahead * ticks <= n * FRAME_TICKS
                  && (n * FRAME_TICKS - lookahead * ticks) * rate / GRANULE_RATE == held - lookahead)
            && (held < lookahead ==> n * FRAME_TICKS < lookahead * ticks)
  {
    var size, ticks := FrameSamples(rate), TicksPerSample(rate);
    assert n * FRAME_TICKS == n * (size * ticks) == n * size * ticks;
    if lookahead <= n * size {
      ByRate(rate, n * size - lookahead);
      assert n * size * ticks - lookahead * ticks == (n * size - lookahead) * ticks;
    } else {
      assert n * size * ticks < lookahead * ticks;
    }
  }

  lemma {:induction false} TornGranule(pages: seq<Page>, perPage: nat)
    requires Paged(pages, perPage) && perPage > 0
    ensures LastGranule(Packets(pages)) == |pages| * perPage * FRAME_TICKS
  {
    if pages != [] {
      forall k | 0 <= k < |pages| ensures pages[k].granule <= pages[|pages| - 1].granule {
        assert (k + 1) * perPage <= |pages| * perPage;
      }
      LastPageGranule(pages);
    }
  }

  lemma {:induction false} FrameTicks(rate: nat, n: nat)
    requires Supported(rate)
    ensures n * FrameSamples(rate) * TicksPerSample(rate) == n * FRAME_TICKS
  {
    assert n * (FrameSamples(rate) * TicksPerSample(rate)) == n * FRAME_TICKS;
  }

  /** Frames needed to carry the tail and the decoder's delay, at least one. */
  function TailFrames(tail: nat, lookahead: nat, size: nat): (n: nat)
    requires size > 0
    ensures n >= 1 && tail + lookahead <= n * size && (n > 1 ==> (n - 1) * size < tail + lookahead)
  {
    var n := (tail + lookahead + size - 1) / size;
    TailFits(tail + lookahead, size);
    if n < 1 then 1 else n
  }

  lemma {:induction false} TailFits(need: nat, size: nat)
    requires size > 0
    ensures var n := (need + size - 1) / size; need <= n * size && (n > 0 ==> (n - 1) * size < need)
  {
    var n := (need + size - 1) / size;
    assert n * size <= need + size - 1 < n * size + size;
    assert n > 0 ==> (n - 1) * size == n * size - size;
  }

  /** The last frame, on a page with the true final granule, completes a track. */
  lemma {:induction false} ClosingPage(l: Layout, heard: seq<Sample>, padding: nat, rate: nat, lookahead: nat, perPage: nat, n: nat)
    requires Supported(rate) && Laid(l, heard + Zeros(padding), FrameSamples(rate), perPage)
    requires n >= 1 && |Frames(l.pages)| + |l.open| == n - 1 && |l.pending| == FrameSamples(rate)
    requires |heard| + padding == n * FrameSamples(rate) == (n - 1) * FrameSamples(rate) + FrameSamples(rate)
    requires (n - 1) * FrameSamples(rate) <= |heard| + lookahead <= n * FrameSamples(rate)
    ensures var last := Page(l.open + [l.pending], Ticks(rate, lookahead + |heard|));
            Complete(Track(rate, Ticks(rate, lookahead), l.pages + [last]), heard, lookahead)
  {
    var size, final := FrameSamples(rate), Ticks(rate, lookahead + |heard|);
    var before, last := Frames(l.pages) + l.open, Page(l.open + [l.pending], final);
    var padded := heard + Zeros(padding);
    FinalGranule(rate, n, lookahead + |heard|);
    PagedCount(l.pages, perPage);
    ClosingGranules(l.pages, perPage, n, final, last.frames);
    FramesAppend(l.pages, last);
    assert Frames(l.pages) + (l.open + [l.pending]) == before + [l.pending];
    hide Paged, Packets, LastGranule, Ticks, Frames;
    LastBlock(before, padded, size, l.pending, n);
    hide Blocked;
  }

  lemma {:induction false} LastBlock(frames: seq<seq<Sample>>, input: seq<Sample>, size: nat, f: seq<Sample>, n: nat)
    requires Blocked(frames, input, size) && n == |frames| + 1 && |f| == size
    requires |input| == n * size == (n - 1) * size + size && f == input[(n - 1) * size..]
    ensures Blocked(frames + [f], input, size)
  {
    BlockedAppend(frames, input, size, f);
  }

  // How many frames the tail takes, against the frames already out.
  lemma {:induction false} TailCounts(first: nat, frames: nat, size: nat, tail: nat, lookahead: nat)
    requires frames >= 1 && tail + lookahead <= frames * size && (frames > 1 ==> (frames - 1) * size < tail + lookahead)
    ensures var n := first + frames;
            && n * size == first * size + frames * size == (n - 1) * size + size
            && (n - 1) * size <= first * size + tail + lookahead <= n * size
  {
    assert (first + frames - 1) * size == first * size + (frames - 1) * size;
  }

  lemma {:induction false} FinalGranule(rate: nat, n: nat, samples: nat)
    requires Supported(rate) && n >= 1 && (n - 1) * FrameSamples(rate) <= samples
    ensures (n - 1) * FRAME_TICKS <= Ticks(rate, samples)
  {
    FrameTicks(rate, n - 1);
    assert (n - 1) * FrameSamples(rate) * TicksPerSample(rate) <= samples * TicksPerSample(rate);
  }

  lemma {:induction false} GranulesRise(perPage: nat, j: nat, k: nat)
    requires j <= k
    ensures j * perPage * FRAME_TICKS <= k * perPage * FRAME_TICKS
  {
    assert j * perPage <= k * perPage;
  }

  lemma {:induction false} PagesRise(pages: seq<Page>, perPage: nat, j: nat, k: nat)
    requires Paged(pages, perPage) && j <= k < |pages|
    ensures pages[j].granule <= pages[k].granule
  {
    GranulesRise(perPage, j + 1, k + 1);
  }

  lemma {:induction false} ClosingGranules(pages: seq<Page>, perPage: nat, n: nat, final: nat, frames: seq<seq<Sample>>)
    requires Paged(pages, perPage) && frames != [] && n >= 1
    requires |pages| * perPage <= n - 1 && (n - 1) * FRAME_TICKS <= final
    ensures var all := pages + [Page(frames, final)];
            && LastGranule(Packets(all)) == final
            && forall j, k :: 0 <= j < k < |all| ==> all[j].granule <= all[k].granule
  {
    var all := pages + [Page(frames, final)];
    forall j, k | 0 <= j < k < |all| ensures all[j].granule <= all[k].granule {
      if k < |pages| {
        PagesRise(pages, perPage, j, k);
      } else {
        GranulesRise(perPage, j + 1, |pages|);
      }
    }
    hide Paged;
    LastPageGranule(all);
  }

  class OpusOggWriter {
    const rate: nat
    const lookahead: nat
    const perPage: nat
    var pages: seq<Page>
    var open: seq<seq<Sample>>
    var pending: seq<Sample>
    var inputSamples: nat
    var packets: nat
    ghost var input: seq<Sample>

    ghost function View(): Layout
      reads this
    {
      Layout(pages, open, pending)
    }

    /** The output is laid out from the input, all but what is pending. */
    ghost predicate InLayout()
      reads this
    {
      && Supported(rate) && perPage > 0
      && Laid(View(), input, FrameSamples(rate), perPage)
      && packets == |Frames(pages)| + |open|
    }

    ghost predicate Valid()
      reads this
    {
      InLayout() && inputSamples == |input|
    }

    constructor (rate: nat, lookahead: nat, pageIntervalMs: nat)
      requires Supported(rate)
      ensures Valid() && input == [] && pages == [] && pending == []
      ensures this.rate == rate && this.lookahead == lookahead
    {
      this.rate, this.lookahead := rate, lookahead;
      perPage := if pageIntervalMs / FRAME_MS < 1 then 1 else pageIntervalMs / FRAME_MS;
      pages, open, pending, inputSamples, packets, input := [], [], [], 0, 0, [];
    }

    /** Encode the oldest pending frame, ending the page when it is full. */
    method EncodeFrame(granule: nat)
      requires InLayout() && FrameSamples(rate) <= |pending| && granule == (packets + 1) * FRAME_TICKS
      modifies this`pages, this`open, this`pending, this`packets
      ensures InLayout() && packets == old(packets) + 1 && |pending| == old(|pending|) - FrameSamples(rate)
    {
      var size := FrameSamples(rate);
      TakeFrameLaid(View(), input, size, perPage);
      hide Laid, Frames;
      var frame := pending[..size];
      pending := pending[size..];
      packets := packets + 1;
      if |open| + 1 >= perPage {
        pages, open := pages + [Page(open + [frame], granule)], [];
      } else {
        open := open + [frame];
      }
    }

    /** Encode mono samples in any portion. */
    method Push(pcm: seq<Sample>)
      requires Valid()
      modifies this
      ensures Valid() && input == old(input) + pcm && |pending| < FrameSamples(rate)
      ensures |open| < perPage
    {
      var size := FrameSamples(rate);
      LaidGrows(View(), input, pcm, size, perPage);
      hide Laid;
      pending := pending + pcm;
      input := input + pcm;
      inputSamples := inputSamples + |pcm|;
      while |pending| >= size
        invariant Valid() && input == old(input) + pcm
        decreases |pending|
      {
        var consumed := inputSamples - (|pending| - size);
        ConsumedTicks(consumed);
        EncodeFrame(consumed * TicksPerSample(rate));
      }
      assert |open| < perPage by { OpenIsPartial(); }
    }

    lemma {:induction false} ConsumedTicks(consumed: nat)
      requires Valid() && FrameSamples(rate) <= |pending| && consumed == inputSamples - (|pending| - FrameSamples(rate))
      ensures consumed * TicksPerSample(rate) == (packets + 1) * FRAME_TICKS
    {
      FrameTicks(rate, packets + 1);
      assert (packets + 1) * FrameSamples(rate) == packets * FrameSamples(rate) + FrameSamples(rate);
    }

    /** Encode all but the last of the frames the padded tail fills. */
    method EncodeTail(frames: nat)
      requires InLayout() && frames >= 1 && |pending| == frames * FrameSamples(rate)
      modifies this`pages, this`open, this`pending, this`packets
      ensures InLayout() && packets == old(packets) + frames - 1 && |pending| == FrameSamples(rate)
    {
      hide Laid, Frames;
      var size, ticks := FrameSamples(rate), TicksPerSample(rate);
      for i := 0 to frames - 1
        invariant InLayout() && packets == old(packets) + i && |pending| == (frames - i) * size
      {
        FrameTicks(rate, packets + 1);
        assert (frames - i) * size == (frames - i - 1) * size + size;
        EncodeFrame((packets + 1) * size * ticks);
      }
    }

    /** Fill the tail up to whole frames with silence. */
    method PadTail(frames: nat) returns (padding: nat)
      requires Valid() && |pending| <= frames * FrameSamples(rate)
      modifies this`pending, this`input
      ensures InLayout() && input == old(input) + Zeros(padding) && |pending| == frames * FrameSamples(rate)
      ensures |old(input)| + padding == packets * FrameSamples(rate) + frames * FrameSamples(rate)
      ensures |old(input)| == packets * FrameSamples(rate) + old(|pending|)
    {
      padding := frames * FrameSamples(rate) - |pending|;
      LaidGrows(View(), input, Zeros(padding), FrameSamples(rate), perPage);
      assert |input| == packets * FrameSamples(rate) + |pending|;
      hide Laid;
      pending := pending + Zeros(padding);
      input := input + Zeros(padding);
    }

    /** Pad and encode the tail with room for the decoder's delay, and close the
        stream at the true length. */
    method Finish() returns (t: Track)
      requires Valid()
      modifies this
      ensures t.rate == rate && Complete(t, old(input), lookahead)
    {
      var size := FrameSamples(rate);
      hide Frames, Ticks, TailFrames, Complete, Blocked, Paged, FrameSamples;
      var frames := TailFrames(|pending|, lookahead, size);
      ghost var heard, n := input, packets + frames;
      TailCounts(packets, frames, size, |pending|, lookahead);
      var padding := PadTail(frames);
      hide Laid;
      EncodeTail(frames);
      var final := Ticks(rate, lookahead + inputSamples);
      ClosingPage(View(), heard, padding, rate, lookahead, perPage, n);
      pages, open, packets := pages + [Page(open + [pending], final)], [], packets + 1;
      t := Track(rate, Ticks(rate, lookahead), pages);
    }

    /** Less than one page of frames is ever unflushed. */
    lemma {:induction false} OpenIsPartial()
      requires Valid()
      ensures |open| < perPage && packets == |pages| * perPage + |open|
    {
      PagedCount(pages, perPage);
    }
  }
}
