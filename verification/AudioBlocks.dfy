/** Intervals of microphone audio on their original sample clock, as the echo
    canceller publishes them, and what it means for them to cover a stream. */
module AudioBlocks {

  // A finite f32. Values are only copied here, never computed with.
  type Sample = real

  const U64_MAX: nat := 0xFFFF_FFFF_FFFF_FFFF

  datatype BypassReason =
    MissingReference | BackendFailed | RouteReset | WorkerBusy | WorkerDeadline | WorkerCancelled

  datatype OutputKind = Cleaned | Raw(reason: BypassReason)

  /** One published interval. `start` is an original absolute sample offset. */
  datatype Output = Output(epoch: nat, start: nat, samples: seq<Sample>, kind: OutputKind) {
    function End(): nat { start + |samples| }
  }

  /** Everything accepted from the microphone in one epoch. */
  datatype Stream = Stream(origin: nat, mic: seq<Sample>) {
    function End(): nat { origin + |mic| }

    predicate Has(position: nat) { origin <= position < End() }
  }

  /** The samples really are this stream's samples at these positions. */
  ghost predicate Matches(stream: Stream, start: nat, samples: seq<Sample>)
  {
    && stream.origin <= start
    && start + |samples| <= stream.End()
    && samples == stream.mic[start - stream.origin..start - stream.origin + |samples|]
  }

  /** A block is genuine when it lies in its stream and carries the original
      samples; `cleanedToo` also demands that of processed audio. */
  ghost predicate Genuine(stream: Stream, block: Output, cleanedToo: bool)
  {
    && stream.origin <= block.start
    && block.End() <= stream.End()
    && (block.kind.Raw? || cleanedToo ==> Matches(stream, block.start, block.samples))
  }

  /** Reading only one epoch, the blocks lie end to end from `from` to `to`. */
  ghost predicate Tiles(blocks: seq<Output>, epoch: nat, from: nat, to: nat)
  {
    if blocks == [] then from == to
    else
      var last, before := blocks[|blocks| - 1], blocks[..|blocks| - 1];
      if last.epoch == epoch then
        last.samples != [] && last.End() == to && Tiles(before, epoch, from, last.start)
      else Tiles(before, epoch, from, to)
  }

  /** Appending an interval, merging it into a contiguous last one of the same
      epoch and kind. */
  function PushOutput(out: seq<Output>, block: Output): (r: seq<Output>)
    ensures r != []
  {
    var n := |out|;
    if n > 0 && out[n - 1].epoch == block.epoch && out[n - 1].kind == block.kind
       && out[n - 1].End() == block.start
    then out[..n - 1] + [out[n - 1].(samples := out[n - 1].samples + block.samples)]
    else out + [block]
  }

  // Merging makes the boundary between two appended halves invisible.
  lemma {:induction false} PushOutputMerges(out: seq<Output>, epoch: nat, start: nat, kind: OutputKind, a: seq<Sample>, b: seq<Sample>)
    ensures PushOutput(PushOutput(out, Output(epoch, start, a, kind)), Output(epoch, start + |a|, b, kind))
            == PushOutput(out, Output(epoch, start, a + b, kind))
  {
    var n := |out|;
    if n > 0 && out[n - 1].epoch == epoch && out[n - 1].kind == kind && out[n - 1].End() == start {
      assert (out[n - 1].samples + a) + b == out[n - 1].samples + (a + b);
    }
  }

  lemma {:induction false} TilesBounds(blocks: seq<Output>, epoch: nat, from: nat, to: nat)
    requires Tiles(blocks, epoch, from, to)
    ensures from <= to
  {
    if blocks != [] {
      var last, before := blocks[|blocks| - 1], blocks[..|blocks| - 1];
      TilesBounds(before, epoch, from, if last.epoch == epoch then last.start else to);
    }
  }

  lemma {:induction false} TilesSplit(x: seq<Output>, y: seq<Output>, epoch: nat, from: nat, to: nat) returns (mid: nat)
    requires Tiles(x + y, epoch, from, to)
    ensures Tiles(x, epoch, from, mid) && Tiles(y, epoch, mid, to)
    decreases |y|
  {
    if y == [] {
      assert x + y == x;
      mid := to;
    } else {
      var n := |y| - 1;
      assert (x + y)[..|x + y| - 1] == x + y[..n];
      mid := TilesSplit(x, y[..n], epoch, from, if y[n].epoch == epoch then y[n].start else to);
    }
  }

  lemma {:induction false} TilesJoin(x: seq<Output>, y: seq<Output>, epoch: nat, from: nat, mid: nat, to: nat)
    requires Tiles(x, epoch, from, mid) && Tiles(y, epoch, mid, to)
    ensures Tiles(x + y, epoch, from, to)
    decreases |y|
  {
    if y == [] {
      assert x + y == x;
    } else {
      var n := |y| - 1;
      assert (x + y)[..|x + y| - 1] == x + y[..n];
      TilesJoin(x, y[..n], epoch, from, mid, if y[n].epoch == epoch then y[n].start else to);
    }
  }

  lemma {:induction false} PushOutputTiles(out: seq<Output>, block: Output, epoch: nat, from: nat, to: nat)
    requires Tiles(out, epoch, from, to)
    requires block.epoch == epoch ==> block.start == to && block.samples != []
    ensures Tiles(PushOutput(out, block), epoch, from, if block.epoch == epoch then block.End() else to)
  {
    var n := |out|;
    var r := PushOutput(out, block);
    assert r[..|r| - 1] == out || (n > 0 && r[..|r| - 1] == out[..n - 1]);
  }

  /** Every block of the log belongs to a known stream and is genuine in it. */
  ghost predicate AllGenuine(streams: map<nat, Stream>, blocks: seq<Output>, cleanedToo: bool)
  {
    forall i :: 0 <= i < |blocks| ==>
      blocks[i].epoch in streams && Genuine(streams[blocks[i].epoch], blocks[i], cleanedToo)
  }

  lemma {:induction false} PushOutputGenuine(streams: map<nat, Stream>, out: seq<Output>, block: Output, cleanedToo: bool)
    requires AllGenuine(streams, out, cleanedToo)
    requires block.epoch in streams && Genuine(streams[block.epoch], block, cleanedToo)
    ensures AllGenuine(streams, PushOutput(out, block), cleanedToo)
  {
    var n := |out|;
    var r := PushOutput(out, block);
    if r != out + [block] {
      var s := streams[block.epoch];
      var last := out[n - 1];
      if block.kind.Raw? || cleanedToo {
        assert last.samples + block.samples
            == s.mic[last.start - s.origin..last.start - s.origin + |last.samples + block.samples|];
      }
      assert Genuine(s, r[n - 1], cleanedToo);
    }
  }

  // A stream that only grows at its end keeps every block genuine.
  lemma {:induction false} GrowthKeepsGenuine(s: Stream, t: Stream, block: Output, cleanedToo: bool)
    requires Genuine(s, block, cleanedToo)
    requires s.origin == t.origin && s.mic <= t.mic
    ensures Genuine(t, block, cleanedToo)
  {
  }
}
