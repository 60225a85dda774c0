/** Ogg Opus tracks: the writer cuts samples into fixed frames and pages with
    granule positions, and the readers recover exactly the samples that went in
    (sections 4, 4.2 and 4.4 of RFC 7845). */
module OpusTrack {
  import opened Outcomes

  type Sample = int

  const GRANULE_RATE: nat := 48_000
  const FRAME_MS: nat := 20

  /** 48 kHz ticks in one frame, at every rate. */
  const FRAME_TICKS: nat := 960

  predicate Supported(rate: nat) { rate in {8_000, 12_000, 16_000, 24_000, 48_000} }

  function FrameSamples(rate: nat): nat { rate * FRAME_MS / 1_000 }

  function TicksPerSample(rate: nat): (r: nat)
    requires Supported(rate)
    ensures r > 0 && r * rate == GRANULE_RATE && FrameSamples(rate) > 0 && FrameSamples(rate) * r == FRAME_TICKS
  {
    GRANULE_RATE / rate
  }

  /** A page of packets, each one encoded frame, and the page's granule. */
  datatype Page = Page(frames: seq<seq<Sample>>, granule: nat)

  /** A packet as a reader sees it: its frame and its page's granule. */
  datatype Packet = Packet(frame: seq<Sample>, granule: nat)

  datatype Track = Track(rate: nat, preSkip: nat, pages: seq<Page>)

  function Zeros(n: nat): (z: seq<Sample>)
    ensures |z| == n
  {
    seq(n, i => 0)
  }

  // ---------------------------------------------------------------- pages and packets

  function PagePackets(p: Page): (r: seq<Packet>)
    ensures |r| == |p.frames|
    ensures forall i :: 0 <= i < |r| ==> r[i] == Packet(p.frames[i], p.granule)
  {
    seq(|p.frames|, i requires 0 <= i < |p.frames| => Packet(p.frames[i], p.granule))
  }

  /** Packets of all intact pages, in order. */
  function Packets(pages: seq<Page>): seq<Packet>
  {
    if pages == [] then [] else Packets(pages[..|pages| - 1]) + PagePackets(pages[|pages| - 1])
  }

  /** The largest granule of any packet. */
  function LastGranule(packets: seq<Packet>): nat
  {
    if packets == [] then 0
    else
      var before, last := LastGranule(packets[..|packets| - 1]), packets[|packets| - 1].granule;
      if before < last then last else before
  }

  function CountFrames(pages: seq<Page>): nat
  {
    if pages == [] then 0 else CountFrames(pages[..|pages| - 1]) + |pages[|pages| - 1].frames|
  }

  function Frames(pages: seq<Page>): seq<seq<Sample>>
  {
    if pages == [] then [] else Frames(pages[..|pages| - 1]) + pages[|pages| - 1].frames
  }

  lemma {:induction false} PacketsCount(pages: seq<Page>)
    ensures |Packets(pages)| == CountFrames(pages) == |Frames(pages)|
  {
    if pages != [] { PacketsCount(pages[..|pages| - 1]); }
  }

  // ---------------------------------------------------------------- reading back

  /** Any decoder: the samples of the last packet, given all packets so far. */
  type Decoder = seq<Packet> -> seq<Sample>

  /** Everything decoded, before trimming. */
  function Decoded(decode: Decoder, packets: seq<Packet>): seq<Sample>
  {
    if packets == [] then [] else Decoded(decode, packets[..|packets| - 1]) + decode(packets)
  }

  function AtRate(ticks: nat, outRate: nat): nat { ticks * outRate / GRANULE_RATE }

  function SkipSamples(t: Track, outRate: nat): nat { AtRate(t.preSkip, outRate) }

  /** How many samples the final granule leaves, when it reaches past the skip. */
  function Limit(t: Track, outRate: nat): Option<nat>
  {
    var last := LastGranule(Packets(t.pages));
    if last >= t.preSkip then Some(AtRate(last - t.preSkip, outRate)) else None
  }

  /** Drop the skip from the front and trim the end to the limit. */
  function Trim(samples: seq<Sample>, skip: nat, limit: Option<nat>): seq<Sample>
  {
    var body := if skip < |samples| then samples[skip..] else [];
    if limit.Some? && limit.value < |body| then body[..limit.value] else body
  }

  function Playback(decode: Decoder, t: Track, outRate: nat): seq<Sample>
  {
    Trim(Decoded(decode, Packets(t.pages)), SkipSamples(t, outRate), Limit(t, outRate))
  }

  method DecodePackets(decode: Decoder, stream: seq<Packet>) returns (samples: seq<Sample>, last: nat)
    ensures samples == Decoded(decode, stream) && last == LastGranule(stream)
  {
    samples, last := [], 0;
    for n := 0 to |stream|
      invariant samples == Decoded(decode, stream[..n]) && last == LastGranule(stream[..n])
    {
      assert stream[..n + 1][..n] == stream[..n];
      samples := samples + decode(stream[..n + 1]);
      if last < stream[n].granule { last := stream[n].granule; }
    }
    assert stream[..|stream|] == stream;
  }

  /** Decode the whole track in one go. */
  method DecodeTrack(decode: Decoder, t: Track, outRate: nat) returns (samples: seq<Sample>)
    ensures samples == Playback(decode, t, outRate)
  {
    hide Decoded, LastGranule, Packets, AtRate;
    var last;
    samples, last := DecodePackets(decode, Packets(t.pages));
    var skip := SkipSamples(t, outRate);
    samples := if skip < |samples| then samples[skip..] else [];
    if last >= t.preSkip {
      var want := AtRate(last - t.preSkip, outRate);
      if want < |samples| { samples := samples[..want]; }
    }
  }

  /** The same samples a packet at a time, for any sequence of read sizes. */
  class StreamReader {
    const decode: Decoder
    const stream: seq<Packet>
    const limit: Option<nat>
    var position: nat
    var skip: nat
    var produced: nat
    var pending: seq<Sample>
    var ended: bool
    ghost const whole: seq<Sample>
    ghost const dropped: nat

    /** What was produced is a prefix of the whole-track decode, and what is
        pending continues it. */
    ghost predicate Valid()
      reads this
    {
      var sofar := Decoded(decode, stream[..if position <= |stream| then position else 0]);
      && position <= |stream| && whole == Trim(Decoded(decode, stream), dropped, limit)
      && skip == (if |sofar| < dropped then dropped - |sofar| else 0)
      && (if |sofar| < dropped then produced == 0 && pending == []
          else dropped + produced <= |sofar| && pending == sofar[dropped + produced..])
      && (limit.Some? ==> produced <= limit.value)
      && (ended ==> position == |stream| && pending == [])
    }

    constructor (decode: Decoder, t: Track, outRate: nat)
      ensures Valid() && produced == 0 && whole == Playback(decode, t, outRate)
    {
      hide LastGranule, Packets, AtRate;
      this.decode := decode;
      stream := Packets(t.pages);
      var last := LastGranule(Packets(t.pages));
      limit := if last >= t.preSkip then Some(AtRate(last - t.preSkip, outRate)) else None;
      position, skip, produced, pending, ended := 0, SkipSamples(t, outRate), 0, [], false;
      dropped := SkipSamples(t, outRate);
      whole := Playback(decode, t, outRate);
      new;
      assert stream[..0] == [];
    }

    /** Queue what the next packet holds past the pre-skip, if there is a packet. */
    method DecodePacket() returns (more: bool)
      requires Valid() && pending == [] && !ended
      modifies this`position, this`skip, this`pending
      ensures Valid() && (more <==> old(position) < |stream|) && position == old(position) + if more then 1 else 0
    {
      if position == |stream| { return false; }
      hide Trim;
      var decoded := decode(stream[..position + 1]);
      assert stream[..position + 1][..position] == stream[..position];
      ghost var sofar := Decoded(decode, stream[..position]);
      assert Decoded(decode, stream[..position + 1]) == sofar + decoded;
      var skipped := if skip < |decoded| then skip else |decoded|;
      skip := skip - skipped;
      pending := decoded[skipped..];
      position := position + 1;
      more := true;
    }

    /** Hand out the oldest pending sample. */
    method PopSample() returns (x: Sample)
      requires Valid() && pending != [] && !(limit.Some? && produced >= limit.value)
      modifies this`pending, this`produced
      ensures Valid() && produced == old(produced) + 1 <= |whole| && x == whole[old(produced)]
    {
      NextSample();
      x := pending[0];
      pending, produced := pending[1..], produced + 1;
    }

    /** Refill from the stream, or find that it is over. */
    method Refill() returns (more: bool)
      requires Valid() && pending == [] && !(limit.Some? && produced >= limit.value)
      modifies this
      ensures Valid() && produced == old(produced)
      ensures if more then position == old(position) + 1 <= |stream| else produced == |whole| && position == old(position)
    {
      more := false;
      if !ended { more := DecodePacket(); }
      if !more {
        ended := true;
        AtEnd();
      }
    }

    /** The next `max` samples of the playback, or what is left of it. */
    method ReadInto(max: nat) returns (out: seq<Sample>)
      requires Valid()
      modifies this
      ensures Valid() && |out| <= max && produced == old(produced) + |out| <= |whole|
      ensures out == whole[old(produced)..produced]
      ensures |out| < max ==> produced == |whole|
    {
      hide Valid;
      out := [];
      AtMostWhole();
      while |out| < max
        invariant Valid() && |out| <= max && produced == old(produced) + |out| <= |whole|
        invariant out == whole[old(produced)..produced]
        decreases max - |out|, |stream| - position
      {
        if limit.Some? && produced >= limit.value {
          AtLimit();
          return;
        }
        if pending != [] {
          var x := PopSample();
          out := out + [x];
        } else {
          var more := Refill();
          if !more { return; }
        }
      }
    }

    lemma {:induction false} AtMostWhole()
      requires Valid()
      ensures produced <= |whole|
    {
      DecodedGrows(decode, stream, position);
    }

    lemma {:induction false} AtLimit()
      requires Valid() && limit.Some? && produced >= limit.value
      ensures produced == |whole|
    {
      DecodedGrows(decode, stream, position);
    }

    lemma {:induction false} AtEnd()
      requires Valid() && ended && !(limit.Some? && produced >= limit.value)
      ensures produced == |whole|
    {
      assert stream[..position] == stream;
    }

    lemma {:induction false} NextSample()
      requires Valid() && pending != [] && !(limit.Some? && produced >= limit.value)
      ensures produced < |whole| && whole[produced] == pending[0]
    {
      DecodedGrows(decode, stream, position);
    }
  }

  lemma {:induction false} DecodedGrows(decode: Decoder, stream: seq<Packet>, n: nat)
    requires n <= |stream|
    ensures Decoded(decode, stream[..n]) <= Decoded(decode, stream)
    decreases |stream| - n
  {
    if n < |stream| {
      DecodedGrows(decode, stream, n + 1);
      assert stream[..n + 1][..n] == stream[..n];
    } else {
      assert stream[..n] == stream;
    }
  }
}
