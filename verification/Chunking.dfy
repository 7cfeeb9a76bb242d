/** Chunk arithmetic of web/src/lib/crypto/session.ts: how a payload is cut into
    wire chunks and put back together. */
module Chunking {
  newtype byte = x: int | 0 <= x < 256 witness 0
  type Bytes = seq<byte>

  /** IMAGE_CHUNK_PAYLOAD_BYTES, TRANSFER_CHUNK_BYTES and HISTORY_CHUNK_PAYLOAD_BYTES. */
  const CHUNK_BYTES: nat := 256 * 1024
  const MAX_TRANSFER_BYTES: nat := 10 * 1024 * 1024
  const MAX_TRANSFER_CHUNKS: nat := 40

  function Min(a: int, b: int): int { if a <= b then a else b }

  function Max(a: int, b: int): int { if a <= b then b else a }

  /** Number of chunks of `c` bytes a payload of `size` bytes is split into (at least one). */
  function ChunkCount(size: nat, c: nat): (n: nat)
    requires c >= 1
    ensures n >= 1
  {
    Max(1, (size + c - 1) / c)
  }

  /** Where chunk `index` starts: index * c, as a sum. */
  function Offset(c: nat, index: nat): nat { if index == 0 then 0 else Offset(c, index - 1) + c }

  lemma {:induction false} OffsetIsProduct(c: nat, index: nat)
    ensures Offset(c, index) == index * c
  {
    if index > 0 { OffsetIsProduct(c, index - 1); }
  }

  /** Exact byte length of chunk `index` of a payload of `size` bytes. */
  function ChunkLength(size: nat, c: nat, index: nat): nat {
    Max(0, Min(c, size - Offset(c, index)))
  }

  /** The bytes of chunk `index`: subarray(start, min(start + c, size)). */
  function Slice(d: Bytes, c: nat, index: nat): Bytes {
    d[Min(Offset(c, index), |d|)..Min(Offset(c, index) + c, |d|)]
  }

  function Slices(d: Bytes, c: nat): (s: seq<Bytes>)
    requires c >= 1
  {
    seq(ChunkCount(|d|, c), i requires 0 <= i => Slice(d, c, i))
  }

  function Flatten(parts: seq<Bytes>): Bytes {
    if parts == [] then [] else Flatten(parts[..|parts| - 1]) + parts[|parts| - 1]
  }

  lemma CeilingIsTight(size: nat, c: nat, n: nat)
    requires c >= 1 && n == (size + c - 1) / c
    ensures size <= n * c < size + c
  {
  }

  /** Chunk counts are tight: n-1 chunks do not reach the end, n chunks do. */
  lemma ChunkCountIsTight(size: nat, c: nat)
    requires c >= 1
    ensures size <= Offset(c, ChunkCount(size, c))
    ensures size > 0 ==> Offset(c, ChunkCount(size, c) - 1) < size
  {
    var n := (size + c - 1) / c;
    CeilingIsTight(size, c, n);
    OffsetIsProduct(c, n);
    if n < 1 {
      assert Offset(c, n) == 0;
    }
  }

  lemma SliceLength(d: Bytes, c: nat, index: nat)
    ensures |Slice(d, c, index)| == ChunkLength(|d|, c, index)
  {
  }

  /** The first n slices concatenate to the prefix they cover. */
  lemma {:induction false} PrefixTiling(d: Bytes, c: nat, n: nat)
    requires c >= 1 && n <= ChunkCount(|d|, c)
    ensures Flatten(Slices(d, c)[..n]) == d[..Min(Offset(c, n), |d|)]
  {
    hide ChunkCount;
    if n > 0 {
      PrefixTiling(d, c, n - 1);
      assert Slices(d, c)[..n][..n - 1] == Slices(d, c)[..n - 1];
    }
  }

  /** Tiling: the slices of a payload concatenate to the payload. */
  lemma SlicesTile(d: Bytes, c: nat)
    requires c >= 1
    ensures Flatten(Slices(d, c)) == d
  {
    PrefixTiling(d, c, ChunkCount(|d|, c));
    ChunkCountIsTight(|d|, c);
    assert Slices(d, c)[..ChunkCount(|d|, c)] == Slices(d, c);
  }

  /** Whatever the bytes are, parts of the lengths the decoder demands fill
      exactly `size` bytes: assembling them can neither overflow nor fall short. */
  lemma {:induction false} LengthsTile(parts: seq<Bytes>, size: nat, c: nat, n: nat)
    requires c >= 1 && n <= |parts| == ChunkCount(size, c)
    requires forall i :: 0 <= i < |parts| ==> |parts[i]| == ChunkLength(size, c, i)
    ensures |Flatten(parts[..n])| == Min(Offset(c, n), size)
    ensures n == |parts| ==> |Flatten(parts)| == size
  {
    hide ChunkCount;
    if n > 0 {
      LengthsTile(parts, size, c, n - 1);
      assert parts[..n][..n - 1] == parts[..n - 1];
    }
    if n == |parts| {
      ChunkCountIsTight(size, c);
      assert parts[..n] == parts;
    }
  }

  /** Copies `parts` one after the other into a fresh buffer of `size` bytes, as the
      receivers do with `data.set(part, offset)`; fails where the copy would run over
      the end or leave a gap at it. */
  method Assemble(parts: seq<Bytes>, size: nat) returns (ok: bool, data: array<byte>)
    ensures fresh(data)
    ensures ok <==> |Flatten(parts)| == size
    ensures ok ==> data[..] == Flatten(parts)
  {
    data := new byte[size];
    var offset := 0;
    for k := 0 to |parts|
      invariant offset == |Flatten(parts[..k])| <= size
      invariant data[..offset] == Flatten(parts[..k])
    {
      var p := parts[k];
      assert parts[..k + 1][..k] == parts[..k];
      if offset + |p| > size {
        FlattenGrows(parts, k + 1);
        return false, data;
      }
      forall j | 0 <= j < |p| {
        data[offset + j] := p[j];
      }
      assert data[..offset + |p|] == Flatten(parts[..k]) + p;
      offset := offset + |p|;
    }
    assert parts[..|parts|] == parts;
    ok := offset == size;
  }

  lemma {:induction false} FlattenGrows(parts: seq<Bytes>, k: nat)
    requires k <= |parts|
    ensures |Flatten(parts[..k])| <= |Flatten(parts)|
    decreases |parts|
  {
    if k == |parts| {
      assert parts[..k] == parts;
    } else {
      assert parts[..|parts| - 1][..k] == parts[..k];
      FlattenGrows(parts[..|parts| - 1], k);
    }
  }
}
