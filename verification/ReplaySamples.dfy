/** Signed 16-bit samples as little-endian bytes, and what a possibly torn byte
    string holds of them. */
module ReplaySamples {
  type Byte = b: int | 0 <= b < 256

  type Pcm = x: int | -32_768 <= x < 32_768

  function Low(x: Pcm): Byte { x % 256 }

  function High(x: Pcm): Byte { x / 256 % 256 }

  function FromBytes(lo: Byte, hi: Byte): Pcm
  {
    if hi < 128 then hi * 256 + lo else (hi - 256) * 256 + lo
  }

  lemma {:induction false} BytesRoundTrip(x: Pcm)
    ensures FromBytes(Low(x), High(x)) == x
  {
    var q := x / 256;
    assert x == 256 * q + x % 256 && -128 <= q <= 127;
    assert q % 256 == if q >= 0 then q else q + 256;
  }

  function Encode(pcm: seq<Pcm>): (r: seq<Byte>)
    ensures |r| == 2 * |pcm|
  {
    if pcm == [] then [] else Encode(pcm[..|pcm| - 1]) + [Low(pcm[|pcm| - 1]), High(pcm[|pcm| - 1])]
  }

  /** The complete samples of a byte string; a trailing half is not one. */
  function Samples(bytes: seq<Byte>): (r: seq<Pcm>)
    ensures |r| == |bytes| / 2
    ensures forall i :: 0 <= i < |r| ==> r[i] == FromBytes(bytes[2 * i], bytes[2 * i + 1])
  {
    seq(|bytes| / 2, i requires 0 <= i < |bytes| / 2 => FromBytes(bytes[2 * i], bytes[2 * i + 1]))
  }

  lemma {:induction false} EncodeAt(pcm: seq<Pcm>, i: nat)
    requires i < |pcm|
    ensures Encode(pcm)[2 * i] == Low(pcm[i]) && Encode(pcm)[2 * i + 1] == High(pcm[i])
  {
    if i < |pcm| - 1 { EncodeAt(pcm[..|pcm| - 1], i); }
  }

  lemma {:induction false} AppendedAt(bytes: seq<Byte>, pcm: seq<Pcm>, i: nat)
    requires |bytes| % 2 == 0 && i < |pcm|
    ensures Samples(bytes + Encode(pcm))[|bytes| / 2 + i] == pcm[i]
  {
    EncodeAt(pcm, i);
    BytesRoundTrip(pcm[i]);
    hide Low, High, FromBytes, Encode;
    var all, k := bytes + Encode(pcm), |bytes| / 2 + i;
    assert all[2 * k] == Encode(pcm)[2 * i] && all[2 * k + 1] == Encode(pcm)[2 * i + 1];
  }

  /** Appending encoded samples to whole ones appends the samples. */
  lemma {:induction false} AppendSamples(bytes: seq<Byte>, pcm: seq<Pcm>)
    requires |bytes| % 2 == 0
    ensures Samples(bytes + Encode(pcm)) == Samples(bytes) + pcm
  {
    var n := |bytes| / 2;
    var got := Samples(bytes + Encode(pcm));
    PrefixSamples(bytes, bytes + Encode(pcm));
    forall i | 0 <= i < |pcm| ensures got[n + i] == pcm[i] { AppendedAt(bytes, pcm, i); }
    var want := Samples(bytes) + pcm;
    hide *;
    forall i | 0 <= i < |got| ensures got[i] == want[i] {
      if i >= n { assert got[n + (i - n)] == pcm[i - n]; }
    }
  }

  /** A longer byte string keeps every complete sample of a shorter one. */
  lemma {:induction false} PrefixSamples(shorter: seq<Byte>, longer: seq<Byte>)
    requires shorter <= longer
    ensures Samples(shorter) <= Samples(longer)
  {
  }

  /** Dropping a trailing half-sample drops no sample. */
  lemma {:induction false} TrimKeepsSamples(bytes: seq<Byte>)
    ensures Samples(bytes[..2 * (|bytes| / 2)]) == Samples(bytes)
  {
  }
}
