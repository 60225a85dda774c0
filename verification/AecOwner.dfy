/** The owner side of the echo-canceller worker: which originals it still holds,
    what it has published, and that every admitted sample comes out once. */
module AecOwner {
  import opened AudioBlocks

  /** One admitted block of originals; the first `used` samples are published. */
  datatype PendingBlock = Pending(start: nat, samples: seq<Sample>, used: nat, acceptedMs: nat) {
    function From(): nat { start + used }

    function End(): nat { start + |samples| }
  }

  type Pending = p: PendingBlock | p.used <= |p.samples| witness Pending(0, [], 0, 0)

  /** The owner's fields. `out` is everything ever published and `admitted` the
      originals accepted in each epoch; `tail` is where the originals handed to
      the worker under the current fence end. */
  datatype Owner = Owner(
    epoch: nat, next: nat, fence: nat, sender: bool, pending: seq<Pending>, retained: nat,
    now: nat, closed: bool, out: seq<Output>, admitted: map<nat, Stream>, tail: nat)

  /** Position of the oldest original still held. */
  function Front(pending: seq<Pending>, tail: nat): nat
  {
    if pending == [] then tail else pending[0].From()
  }

  /** Held originals lie end to end from `from` to `to`. */
  ghost predicate Chain(pending: seq<Pending>, from: nat, to: nat)
  {
    if pending == [] then from == to
    else
      && pending[0].used < |pending[0].samples|
      && pending[0].From() == from
      && Chain(pending[1..], pending[0].End(), to)
  }

  function RawBlock(epoch: nat, p: Pending, reason: BypassReason): Output
  {
    Output(epoch, p.From(), p.samples[p.used..], Raw(reason))
  }

  function RawBlocks(epoch: nat, pending: seq<Pending>, reason: BypassReason): seq<Output>
  {
    if pending == [] then [] else [RawBlock(epoch, pending[0], reason)] + RawBlocks(epoch, pending[1..], reason)
  }

  /** Mark the oldest n held samples as published. */
  function Consume(pending: seq<Pending>, n: nat): seq<Pending>
  {
    if n == 0 || pending == [] then pending
    else
      var left := |pending[0].samples| - pending[0].used;
      if n < left then [pending[0].(used := pending[0].used + n)] + pending[1..]
      else Consume(pending[1..], n - left)
  }

  /** Does the block continue the oldest held original and fit what is held? */
  predicate Acceptable(o: Owner, block: Output)
  {
    && o.pending != []
    && block.start == o.pending[0].From()
    && 0 < |block.samples| <= o.retained
  }

  function Accept(o: Owner, block: Output): Owner
    requires Acceptable(o, block)
  {
    o.(pending := Consume(o.pending, |block.samples|), retained := o.retained - |block.samples|,
       out := o.out + [block.(epoch := o.epoch)])
  }

  /** Publish a result's blocks in order; stop at the first that does not fit. */
  function AcceptAll(o: Owner, blocks: seq<Output>): (Owner, bool)
    decreases |blocks|
  {
    if blocks == [] then (o, true)
    else if !Acceptable(o, blocks[0]) then (o, false)
    else AcceptAll(Accept(o, blocks[0]), blocks[1..])
  }

  /** Publish every held original and move to a fence no result carries; an
      exhausted fence becomes the terminal zero and closes the stream. */
  function Fallback(o: Owner, reason: BypassReason): Owner
  {
    var exhausted := o.fence == U64_MAX;
    o.(fence := if exhausted then 0 else o.fence + 1,
       sender := o.sender && !exhausted, closed := o.closed || exhausted,
       out := o.out + RawBlocks(o.epoch, o.pending, reason),
       pending := [], retained := 0, tail := o.next)
  }

  function Admit(o: Owner, mic: seq<Sample>): Owner
    requires o.epoch in o.admitted
  {
    o.(next := o.next + |mic|,
       admitted := o.admitted[o.epoch := o.admitted[o.epoch].(mic := o.admitted[o.epoch].mic + mic)])
  }

  /** No worker: admit and publish the originals in one go. */
  function PassThrough(o: Owner, mic: seq<Sample>): Owner
    requires o.epoch in o.admitted
  {
    var admitted := Admit(o, mic);
    admitted.(out := o.out + [Output(o.epoch, o.next, mic, Raw(BackendFailed))])
  }

  /** Admit and hold the originals until they are published. */
  function Hold(o: Owner, mic: seq<Sample>, now: nat, sent: bool): Owner
    requires o.epoch in o.admitted
  {
    var admitted := Admit(o, mic);
    admitted.(pending := o.pending + [Pending(o.next, mic, 0, now)], retained := o.retained + |mic|,
              tail := if sent then o.next + |mic| else o.tail)
  }

  /** A new route: the old one's originals are published first. */
  function Reroute(o: Owner, epoch: nat, start: nat): Owner
  {
    var released := Fallback(o, RouteReset);
    released.(epoch := epoch, next := start, tail := start, admitted := o.admitted[epoch := Stream(start, [])])
  }

  // ---------------------------------------------------------------- conservation

  /** How many published blocks cover a position. */
  ghost function Copies(out: seq<Output>, epoch: nat, position: nat): nat
  {
    if out == [] then 0
    else
      var last := out[|out| - 1];
      Copies(out[..|out| - 1], epoch, position)
      + (if last.epoch == epoch && last.start <= position < last.End() then 1 else 0)
  }

  ghost function Held(o: Owner, end: nat, epoch: nat, position: nat): nat
  {
    if epoch == o.epoch && Front(o.pending, o.tail) <= position < end then 1 else 0
  }

  ghost function Owed(admitted: map<nat, Stream>, epoch: nat, position: nat): nat
  {
    if epoch in admitted && admitted[epoch].Has(position) then 1 else 0
  }

  /** Published copies plus held ones are exactly the admitted positions, once. */
  ghost predicate ExactlyOnce(o: Owner, end: nat)
  {
    forall e, p {:trigger Copies(o.out, e, p)} ::
      Copies(o.out, e, p) + Held(o, end, e, p) == Owed(o.admitted, e, p)
  }

  ghost predicate HeldGenuine(o: Owner)
    requires o.epoch in o.admitted
  {
    forall i :: 0 <= i < |o.pending| ==>
      Matches(o.admitted[o.epoch], o.pending[i].start, o.pending[i].samples)
  }

  /** The owner's books balance; `end` is where the held originals stop. */
  ghost predicate Balanced(o: Owner, end: nat, pure: bool)
  {
    && o.epoch in o.admitted
    && (forall e :: e in o.admitted ==> e <= o.epoch)
    && o.admitted[o.epoch].End() == o.next
    && Chain(o.pending, Front(o.pending, o.tail), end)
    && end <= o.next
    && o.retained == end - Front(o.pending, o.tail)
    && HeldGenuine(o)
    && AllGenuine(o.admitted, o.out, pure)
    && ExactlyOnce(o, end)
  }

  lemma {:induction false} CopiesConcat(x: seq<Output>, y: seq<Output>, e: nat, p: nat)
    ensures Copies(x + y, e, p) == Copies(x, e, p) + Copies(y, e, p)
    decreases |y|
  {
    if y == [] {
      assert x + y == x;
    } else {
      var n := |y| - 1;
      CopiesConcat(x, y[..n], e, p);
      assert (x + y)[..|x + y| - 1] == x + y[..n];
    }
  }

  lemma {:induction false} CopiesOne(block: Output, e: nat, p: nat)
    ensures Copies([block], e, p) == if block.epoch == e && block.start <= p < block.End() then 1 else 0
  {
    assert [block][..0] == [];
  }

  lemma {:induction false} ChainBounds(pending: seq<Pending>, from: nat, to: nat)
    requires Chain(pending, from, to)
    ensures from <= to && (pending != [] ==> from < to)
  {
    if pending != [] { ChainBounds(pending[1..], pending[0].End(), to); }
  }

  // The raw blocks of a chain cover it once and nothing else.
  lemma {:induction false} RawBlocksCover(epoch: nat, pending: seq<Pending>, reason: BypassReason, from: nat, to: nat, e: nat, p: nat)
    requires Chain(pending, from, to)
    ensures Copies(RawBlocks(epoch, pending, reason), e, p) == if e == epoch && from <= p < to then 1 else 0
  {
    if pending != [] {
      var first, rest := RawBlock(epoch, pending[0], reason), RawBlocks(epoch, pending[1..], reason);
      RawBlocksCover(epoch, pending[1..], reason, pending[0].End(), to, e, p);
      ChainBounds(pending[1..], pending[0].End(), to);
      CopiesConcat([first], rest, e, p);
      CopiesOne(first, e, p);
    }
  }

  lemma {:induction false} RawBlocksGenuine(epoch: nat, pending: seq<Pending>, reason: BypassReason, s: Stream, pure: bool)
    requires forall i :: 0 <= i < |pending| ==> Matches(s, pending[i].start, pending[i].samples)
    ensures forall i :: 0 <= i < |RawBlocks(epoch, pending, reason)| ==>
              var b := RawBlocks(epoch, pending, reason)[i]; b.epoch == epoch && Genuine(s, b, pure)
  {
    if pending != [] {
      RawBlocksGenuine(epoch, pending[1..], reason, s, pure);
      MatchesTail(s, pending[0].start, pending[0].samples, pending[0].used);
    }
  }

  lemma {:induction false} MatchesTail(s: Stream, start: nat, samples: seq<Sample>, k: nat)
    requires Matches(s, start, samples) && k <= |samples|
    ensures Matches(s, start + k, samples[k..])
  {
  }

  lemma {:induction false} ConsumeChain(pending: seq<Pending>, n: nat, from: nat, to: nat)
    requires Chain(pending, from, to) && n <= to - from
    ensures var r := Consume(pending, n);
            && Chain(r, from + n, to)
            && (r == [] ==> from + n == to)
            && (r != [] ==> r[0].From() == from + n)
    decreases |pending|
  {
    if n > 0 && pending != [] {
      var left := |pending[0].samples| - pending[0].used;
      if n < left {
        var head := pending[0].(used := pending[0].used + n);
        assert ([head] + pending[1..])[1..] == pending[1..];
      } else {
        ConsumeChain(pending[1..], n - left, pending[0].End(), to);
      }
    }
  }

  lemma {:induction false} ConsumeGenuine(pending: seq<Pending>, n: nat, s: Stream)
    requires forall i :: 0 <= i < |pending| ==> Matches(s, pending[i].start, pending[i].samples)
    ensures forall i :: 0 <= i < |Consume(pending, n)| ==>
              Matches(s, Consume(pending, n)[i].start, Consume(pending, n)[i].samples)
    decreases |pending|
  {
    if n > 0 && pending != [] {
      var left := |pending[0].samples| - pending[0].used;
      if n >= left { ConsumeGenuine(pending[1..], n - left, s); }
    }
  }

  lemma {:induction false} ChainPush(pending: seq<Pending>, from: nat, to: nat, last: Pending)
    requires Chain(pending, from, to) && last.From() == to && last.used < |last.samples|
    ensures Chain(pending + [last], from, last.End())
  {
    if pending == [] {
      assert (pending + [last])[1..] == [];
    } else {
      ChainPush(pending[1..], pending[0].End(), to, last);
      assert (pending + [last])[1..] == pending[1..] + [last];
    }
  }

  /** Falling back publishes exactly what was held. */
  lemma {:induction false} FallbackBalances(o: Owner, end: nat, pure: bool, reason: BypassReason)
    requires Balanced(o, end, pure)
    ensures Balanced(Fallback(o, reason), o.next, pure)
  {
    var r := Fallback(o, reason);
    var raw := RawBlocks(o.epoch, o.pending, reason);
    RawBlocksGenuine(o.epoch, o.pending, reason, o.admitted[o.epoch], pure);
    forall e, p ensures Copies(r.out, e, p) + Held(r, o.next, e, p) == Owed(r.admitted, e, p)
    {
      CopiesConcat(o.out, raw, e, p);
      RawBlocksCover(o.epoch, o.pending, reason, Front(o.pending, o.tail), end, e, p);
      assert Copies(o.out, e, p) + Held(o, end, e, p) == Owed(o.admitted, e, p);
    }
  }

  /** An accepted block replaces exactly the originals it covers. */
  lemma {:induction false} AcceptBalances(o: Owner, pure: bool, block: Output)
    requires Balanced(o, o.tail, pure) && Acceptable(o, block)
    requires Genuine(o.admitted[o.epoch], block, pure)
    ensures var r := Accept(o, block);
            Balanced(r, o.tail, pure) && Front(r.pending, r.tail) == block.End()
  {
    var r := Accept(o, block);
    var n := |block.samples|;
    ConsumeChain(o.pending, n, Front(o.pending, o.tail), o.tail);
    ConsumeGenuine(o.pending, n, o.admitted[o.epoch]);
    forall e, p ensures Copies(r.out, e, p) + Held(r, o.tail, e, p) == Owed(r.admitted, e, p)
    {
      CopiesConcat(o.out, [block.(epoch := o.epoch)], e, p);
      CopiesOne(block.(epoch := o.epoch), e, p);
      assert Copies(o.out, e, p) + Held(o, o.tail, e, p) == Owed(o.admitted, e, p);
    }
  }

  /** The fields accepting results does not touch. */
  ghost predicate SameRoute(o: Owner, r: Owner)
  {
    r == o.(pending := r.pending, retained := r.retained, out := r.out)
  }

  /** Blocks that lie end to end from the front of what is held are all
      accepted, each over its own originals. */
  lemma {:induction false} AcceptAllBalances(o: Owner, pure: bool, blocks: seq<Output>, fence: nat, to: nat)
    requires Balanced(o, o.tail, pure) && to <= o.tail
    requires forall i :: 0 <= i < |blocks| ==> blocks[i].epoch == fence && Genuine(o.admitted[o.epoch], blocks[i], pure)
    requires Tiles(blocks, fence, Front(o.pending, o.tail), to)
    ensures var (r, ok) := AcceptAll(o, blocks);
            ok && SameRoute(o, r) && Balanced(r, o.tail, pure) && Front(r.pending, r.tail) == to
    decreases |blocks|
  {
    if blocks != [] {
      var rest := blocks[1..];
      assert blocks[..1] + rest == blocks;
      var mid := TilesSplit(blocks[..1], rest, fence, Front(o.pending, o.tail), to);
      assert blocks[..1][..0] == [] && mid == blocks[0].End();
      TilesBounds(rest, fence, mid, to);
      AcceptBalances(o, pure, blocks[0]);
      AcceptAllBalances(Accept(o, blocks[0]), pure, rest, fence, to);
    }
  }

  /** A refusal part way through still leaves the books balanced. */
  lemma {:induction false} AcceptSomeBalances(o: Owner, pure: bool, blocks: seq<Output>)
    requires Balanced(o, o.tail, pure)
    requires forall i :: 0 <= i < |blocks| ==> Genuine(o.admitted[o.epoch], blocks[i], pure)
    ensures var (r, _) := AcceptAll(o, blocks); SameRoute(o, r) && Balanced(r, o.tail, pure)
    decreases |blocks|
  {
    if blocks != [] && Acceptable(o, blocks[0]) {
      AcceptBalances(o, pure, blocks[0]);
      AcceptSomeBalances(Accept(o, blocks[0]), pure, blocks[1..]);
    }
  }

  // Admission adds exactly the new positions to what is owed.
  lemma {:induction false} AdmitOwes(o: Owner, mic: seq<Sample>, e: nat, p: nat)
    requires o.epoch in o.admitted && o.admitted[o.epoch].End() == o.next
    ensures Owed(Admit(o, mic).admitted, e, p)
            == Owed(o.admitted, e, p) + (if e == o.epoch && o.next <= p < o.next + |mic| then 1 else 0)
  {
  }

  lemma {:induction false} AdmitGenuine(o: Owner, mic: seq<Sample>, pure: bool)
    requires o.epoch in o.admitted && o.admitted[o.epoch].End() == o.next
    requires AllGenuine(o.admitted, o.out, pure) && HeldGenuine(o)
    ensures AllGenuine(Admit(o, mic).admitted, o.out, pure) && HeldGenuine(Admit(o, mic))
    ensures Matches(Admit(o, mic).admitted[o.epoch], o.next, mic)
  {
    var r := Admit(o, mic);
    forall i | 0 <= i < |o.out|
      ensures o.out[i].epoch in r.admitted && Genuine(r.admitted[o.out[i].epoch], o.out[i], pure)
    {
      GrowthKeepsGenuine(o.admitted[o.out[i].epoch], r.admitted[o.out[i].epoch], o.out[i], pure);
    }
  }

  lemma {:induction false} PassThroughBalances(o: Owner, end: nat, pure: bool, mic: seq<Sample>)
    requires Balanced(o, end, pure)
    ensures Balanced(PassThrough(o, mic), end, pure)
  {
    var r := PassThrough(o, mic);
    AdmitGenuine(o, mic, pure);
    forall e, p ensures Copies(r.out, e, p) + Held(r, end, e, p) == Owed(r.admitted, e, p)
    {
      CopiesConcat(o.out, [r.out[|o.out|]], e, p);
      CopiesOne(r.out[|o.out|], e, p);
      AdmitOwes(o, mic, e, p);
      assert Copies(o.out, e, p) + Held(o, end, e, p) == Owed(o.admitted, e, p);
    }
  }

  lemma {:induction false} HoldBalances(o: Owner, pure: bool, mic: seq<Sample>, now: nat, sent: bool)
    requires Balanced(o, o.tail, pure) && mic != [] && o.tail == o.next
    ensures Balanced(Hold(o, mic, now, sent), o.next + |mic|, pure)
  {
    var r := Hold(o, mic, now, sent);
    AdmitGenuine(o, mic, pure);
    ChainPush(o.pending, Front(o.pending, o.tail), o.tail, Pending(o.next, mic, 0, now));
    forall e, p ensures Copies(r.out, e, p) + Held(r, o.next + |mic|, e, p) == Owed(r.admitted, e, p)
    {
      AdmitOwes(o, mic, e, p);
      assert Copies(o.out, e, p) + Held(o, o.tail, e, p) == Owed(o.admitted, e, p);
    }
  }

  lemma {:induction false} RerouteBalances(o: Owner, end: nat, pure: bool, epoch: nat, start: nat)
    requires Balanced(o, end, pure) && o.epoch < epoch
    ensures Balanced(Reroute(o, epoch, start), start, pure)
  {
    var r := Reroute(o, epoch, start);
    var released := Fallback(o, RouteReset);
    FallbackBalances(o, end, pure, RouteReset);
    forall e, p ensures Copies(r.out, e, p) + Held(r, start, e, p) == Owed(r.admitted, e, p)
    {
      assert Copies(released.out, e, p) + Held(released, o.next, e, p) == Owed(released.admitted, e, p);
    }
  }

  /** How many held blocks still owe a position, and how much they owe in all. */
  ghost function HeldCopies(pending: seq<Pending>, position: nat): nat
  {
    if pending == [] then 0
    else (if pending[0].From() <= position < pending[0].End() then 1 else 0) + HeldCopies(pending[1..], position)
  }

  ghost function Unused(pending: seq<Pending>): nat
  {
    if pending == [] then 0 else |pending[0].samples| - pending[0].used + Unused(pending[1..])
  }

  lemma {:induction false} ChainOwes(pending: seq<Pending>, from: nat, to: nat, position: nat)
    requires Chain(pending, from, to)
    ensures HeldCopies(pending, position) == if from <= position < to then 1 else 0
    ensures Unused(pending) == to - from
  {
    if pending != [] {
      ChainOwes(pending[1..], pending[0].End(), to, position);
      ChainBounds(pending[1..], pending[0].End(), to);
    }
  }

  /** Balanced books, read position by position. */
  lemma {:induction false} BalancedMeans(o: Owner, end: nat, pure: bool, e: nat, p: nat)
    requires Balanced(o, end, pure)
    ensures Copies(o.out, e, p) + (if e == o.epoch then HeldCopies(o.pending, p) else 0) == Owed(o.admitted, e, p)
    ensures o.retained == Unused(o.pending)
  {
    ChainOwes(o.pending, Front(o.pending, o.tail), end, p);
    assert Copies(o.out, e, p) + Held(o, end, e, p) == Owed(o.admitted, e, p);
  }
}
