/** The owner's ledger as an object: the two loops that spend held originals,
    proved equal to the functions of `AecOwner` on its view. */
module AecOwnerObject {
  import opened AudioBlocks
  import opened AecOwner
  import opened AecAdapterObject

  class Ledger {
    var epoch: nat
    var next: nat
    var fence: nat
    var sender: bool
    var pending: seq<Pending>
    var retained: nat
    var now: nat
    var closed: bool
    ghost var admitted: map<nat, Stream>
    ghost var tail: nat

    ghost function View(out: OutputLog): Owner
      reads this, out
    {
      Owner(epoch, next, fence, sender, pending, retained, now, closed, out.blocks, admitted, tail)
    }

    /** `retained` is what the queue owes, and no spent block stays queued. */
    ghost predicate Counted()
      reads this
    {
      && retained == Unused(pending)
      && forall i :: 0 <= i < |pending| ==> pending[i].used < |pending[i].samples|
    }

    constructor (epoch: nat, start: nat, out: OutputLog)
      requires out.blocks == []
      ensures Counted()
      ensures View(out) == Owner(epoch, start, 1, true, [], 0, 0, false, [], map[epoch := Stream(start, [])], start)
    {
      this.epoch, next, fence, sender := epoch, start, 1, true;
      pending, retained, now, closed := [], 0, 0, false;
      admitted, tail := map[epoch := Stream(start, [])], start;
    }

    /** Take a result block if it continues the oldest original and fits. */
    method AcceptBlock(block: Output, out: OutputLog) returns (ok: bool)
      requires Counted()
      modifies this`pending, this`retained, out
      ensures Counted()
      ensures ok <==> Acceptable(old(View(out)), block)
      ensures View(out) == if ok then Accept(old(View(out)), block) else old(View(out))
    {
      if pending == [] { return false; }
      if block.start != pending[0].start + pending[0].used || |block.samples| > retained || block.samples == [] {
        return false;
      }
      var remaining: nat := |block.samples|;
      ghost var total := Consume(pending, remaining);
      while remaining > 0
        modifies this`pending, this`retained
        invariant Counted() && remaining <= retained && retained - remaining == old(retained) - |block.samples|
        invariant Consume(pending, remaining) == total
      {
        var front := pending[0];
        var left := |front.samples| - front.used;
        var n := if remaining < left then remaining else left;
        front := front.(used := front.used + n);
        remaining := remaining - n;
        retained := retained - n;
        if front.used == |front.samples| {
          pending := pending[1..];
        } else {
          pending := [front] + pending[1..];
        }
      }
      out.blocks := out.blocks + [block.(epoch := epoch)];
      ok := true;
    }

    /** Publish every held original and move past all results in flight. */
    method FallBack(reason: BypassReason, out: OutputLog)
      requires Counted()
      modifies this, out
      ensures Counted() && View(out) == Fallback(old(View(out)), reason)
    {
      if fence != U64_MAX {
        fence := fence + 1;
      } else {
        fence := 0;
        sender := false;
        closed := true;
      }
      DrainRaw(reason, out);
      retained := 0;
      tail := next;
    }
  
    method DrainRaw(reason: BypassReason, out: OutputLog)
      modifies this`pending, out
      ensures pending == [] && out.blocks == old(out.blocks) + RawBlocks(epoch, old(pending), reason)
    {
      ghost var all := out.blocks + RawBlocks(epoch, pending, reason);
      while pending != []
        invariant out.blocks + RawBlocks(epoch, pending, reason) == all
        decreases |pending|
      {
        var p := pending[0];
        ghost var rest := RawBlocks(epoch, pending[1..], reason);
        ghost var block := RawBlock(epoch, p, reason);
        assert (out.blocks + [block]) + rest == out.blocks + ([block] + rest);
        out.blocks := out.blocks + [Output(epoch, p.start + p.used, p.samples[p.used..], Raw(reason))];
        pending := pending[1..];
      }
      assert out.blocks + [] == out.blocks;
    }
  }
}
