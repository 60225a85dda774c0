/** The sample ring's producer: whole callbacks are admitted or dropped, and the
    timing it publishes adds up to what was offered. */
module CaptureRing {
  type Sample = real

  /** Timing of one callback, mapped to the accepted samples. */
  datatype Observation = Observation(
    sequence: nat, sampleStart: nat, sampleCount: nat, deviceFrames: nat, hostNs: nat, flags: bv32,
    droppedSamples: nat, timingFaults: nat)

  /** Numbered from one; sample intervals and running totals never go back. */
  ghost predicate Tiled(obs: seq<Observation>, accepted: nat, dropped: nat, faults: nat)
  {
    && (forall i :: 0 <= i < |obs| ==>
          && obs[i].sequence == i + 1 && obs[i].sampleStart + obs[i].sampleCount <= accepted
          && obs[i].droppedSamples <= dropped && obs[i].timingFaults <= faults)
    && (forall i, j :: 0 <= i < j < |obs| ==>
          && obs[i].sampleStart + obs[i].sampleCount <= obs[j].sampleStart
          && obs[i].droppedSamples <= obs[j].droppedSamples && obs[i].timingFaults <= obs[j].timingFaults)
  }

  lemma {:induction false} TiledAppend(obs: seq<Observation>, accepted: nat, dropped: nat, faults: nat, o: Observation)
    requires Tiled(obs, accepted, dropped, faults) && o.sequence == |obs| + 1 && o.sampleStart == accepted
    requires dropped <= o.droppedSamples && faults <= o.timingFaults
    ensures Tiled(obs + [o], o.sampleStart + o.sampleCount, o.droppedSamples, o.timingFaults)
  {
  }

  class Ring {
    const capacity: nat
    var queue: seq<Sample>
    var dropped: nat
    var accepted: nat
    var sequence: nat
    var timingFaults: nat
    var latest: seq<Observation>
    ghost var stream: seq<Sample>
    ghost var popped: nat
    ghost var offered: nat

    /** Every accepted sample left in order or is still queued; every offered one
        was accepted or counted; the published observations tile the stream. */
    ghost predicate Valid()
      reads this
    {
      && |queue| <= capacity
      && popped <= |stream| && queue == stream[popped..]
      && accepted == |stream| && accepted + dropped == offered
      && sequence == |latest| && Tiled(latest, accepted, dropped, timingFaults)
    }

    constructor (capacity: nat)
      ensures Valid() && this.capacity == capacity && stream == [] && offered == 0 && latest == []
    {
      this.capacity := capacity;
      queue, dropped, accepted, sequence, timingFaults, latest := [], 0, 0, 0, 0, [];
      stream, popped, offered := [], 0, 0;
    }

    /** Copy as much as fits and count the rest. */
    method PushBlock(block: seq<Sample>) returns (took: nat)
      requires Valid()
      modifies this`queue, this`accepted, this`dropped, this`stream, this`offered
      ensures Valid() && took <= |block| && (took == |block| || |queue| == capacity)
      ensures took == |block| <==> old(|queue|) + |block| <= capacity
      ensures stream == old(stream) + block[..took] && offered == old(offered) + |block|
      ensures dropped == old(dropped) + |block| - took
    {
      var free := capacity - |queue|;
      took := if |block| <= free then |block| else free;
      queue := queue + block[..took];
      stream := stream + block[..took];
      accepted := accepted + took;
      dropped := dropped + (|block| - took);
      offered := offered + |block|;
    }

    /** Admit the whole callback or none of it. */
    method PushCompleteBlock(block: seq<Sample>) returns (took: nat)
      requires Valid()
      modifies this`queue, this`accepted, this`dropped, this`stream, this`offered
      ensures Valid() && took == (if old(|queue|) + |block| <= capacity then |block| else 0)
      ensures stream == old(stream) + block[..took] && offered == old(offered) + |block|
      ensures dropped == old(dropped) + |block| - took
    {
      if capacity - |queue| < |block| {
        dropped := dropped + |block|;
        offered := offered + |block|;
        return 0;
      }
      took := PushBlock(block);
    }

    /** Admit a callback and publish its timing; an empty one publishes nothing. */
    method PushCaptureBlock(block: seq<Sample>, deviceFrames: nat, hostNs: nat, flags: bv32) returns (took: nat)
      requires Valid()
      modifies this`queue, this`accepted, this`dropped, this`stream, this`offered, this`sequence, this`timingFaults, this`latest
      ensures Valid() && took == (if old(|queue|) + |block| <= capacity then |block| else 0)
      ensures stream == old(stream) + block[..took] && offered == old(offered) + |block|
      ensures block == [] ==> latest == old(latest)
      ensures block != [] ==>
                latest == old(latest) + [Observation(old(sequence) + 1, old(accepted), took, deviceFrames, hostNs, flags, dropped, timingFaults)]
      ensures timingFaults == old(timingFaults) + if block != [] && flags & 6 != 0 then 1 else 0
    {
      hide Tiled;
      var start := accepted;
      ghost var lost, faults := dropped, timingFaults;
      took := PushCompleteBlock(block);
      if block != [] {
        sequence := sequence + 1;
        if flags & 6 != 0 { timingFaults := timingFaults + 1; }
        var seen := Observation(sequence, start, took, deviceFrames, hostNs, flags, dropped, timingFaults);
        TiledAppend(latest, start, lost, faults, seen);
        latest := latest + [seen];
      }
    }

    /** Drain up to n samples in the order they were accepted. */
    method PopInto(n: nat) returns (out: seq<Sample>)
      requires Valid()
      modifies this`queue, this`popped
      ensures Valid() && |out| == (if n <= old(|queue|) then n else old(|queue|))
      ensures popped == old(popped) + |out| <= |stream| && out == stream[old(popped)..popped] && out + queue == old(queue)
    {
      hide Tiled;
      var k := if n <= |queue| then n else |queue|;
      out := queue[..k];
      queue := queue[k..];
      popped := popped + k;
    }
  }
}
