/** History bundles on the wire: splitHistoryChunks and assembleHistoryChunks
    (web/src/lib/crypto/session.ts) and the receiver that collects chunks as they come
    (handleHistoryChunk, web/src/lib/relay/connection-manager.ts). */
module HistoryChunks {
  import opened Chunking
  import opened Wrappers

  datatype Chunk = Chunk(id: string, index: nat, total: nat, data: Bytes, compressedLength: Option<nat>)

  function Datas(cs: seq<Chunk>): (d: seq<Bytes>)
    ensures |d| == |cs| && forall i :: 0 <= i < |cs| ==> d[i] == cs[i].data
  {
    seq(|cs|, i requires 0 <= i < |cs| => cs[i].data)
  }

  /** Chunks 0, 1, ... of one bundle, in order, whose first announces a length. */
  ghost predicate Aligned(o: seq<Chunk>) {
    && |o| >= 1 && o[0].compressedLength.Some?
    && forall i :: 0 <= i < |o| ==> o[i].index == i && o[i].id == o[0].id && o[i].total == |o|
  }

  /** An aligned bundle as long as it says it is. */
  ghost predicate Bundle(o: seq<Chunk>) {
    Aligned(o) && o[0].compressedLength.value == |Flatten(Datas(o))|
  }

  /** What assembling means, whatever order the chunks are given in: the bytes of the bundle
      they are a rearrangement of, if there is one. */
  ghost function Blob(cs: seq<Chunk>): Option<Bytes> {
    if exists o :: Bundle(o) && multiset(o) == multiset(cs) then
      var o :| Bundle(o) && multiset(o) == multiset(cs);
      Some(Flatten(Datas(o)))
    else None
  }

  lemma SameChunk(o: seq<Chunk>, x: Chunk)
    requires Aligned(o) && x in multiset(o)
    ensures x.index < |o| && o[x.index] == x
  {
  }

  lemma OrderIsUnique(p: seq<Chunk>, o: seq<Chunk>)
    requires Aligned(p) && Aligned(o) && multiset(p) == multiset(o)
    ensures p == o
  {
    assert |multiset(p)| == |multiset(o)|;
    forall i | 0 <= i < |o| ensures p[i] == o[i] {
      assert o[i] in multiset(p);
      SameChunk(p, o[i]);
    }
  }

  /** A set of chunks is a rearrangement of at most one bundle. */
  lemma BundleIsUnique(cs: seq<Chunk>, o: seq<Chunk>)
    requires Bundle(o) && multiset(o) == multiset(cs)
    ensures Blob(cs) == Some(Flatten(Datas(o)))
  {
    forall p | Bundle(p) && multiset(p) == multiset(cs) ensures p == o { OrderIsUnique(p, o); }
  }

  // ---- Splitting ----------------------------------------------------------

  function Piece(id: string, d: Bytes, c: nat, i: nat): Chunk
    requires c >= 1
  {
    Chunk(id, i, ChunkCount(|d|, c), Slice(d, c, i), if i == 0 then Some(|d|) else None)
  }

  function Pieces(id: string, d: Bytes, c: nat): seq<Chunk>
    requires c >= 1
  {
    seq(ChunkCount(|d|, c), i requires 0 <= i => Piece(id, d, c, i))
  }

  method SplitHistoryChunks(requestId: string, compressed: Bytes, chunkSize: int) returns (ok: bool, chunks: seq<Chunk>)
    ensures ok <==> chunkSize >= 1
    ensures ok ==> chunks == Pieces(requestId, compressed, chunkSize)
    ensures ok ==> Blob(chunks) == Some(compressed)
  {
    hide Blob;
    chunks := [];
    if chunkSize < 1 { return false, []; }
    var total := Max(1, (|compressed| + chunkSize - 1) / chunkSize);
    assert total == ChunkCount(|compressed|, chunkSize);
    hide ChunkCount;
    var start := 0;
    for index := 0 to total
      invariant start == Offset(chunkSize, index)
      invariant |chunks| == index
      invariant forall j :: 0 <= j < index ==> chunks[j] == Piece(requestId, compressed, chunkSize, j)
    {
      BeforeTheEnd(|compressed|, chunkSize, index);
      var end := Min(start + chunkSize, |compressed|);
      var data := compressed[start..end];
      var chunk := Chunk(requestId, index, total, data, None);
      if index == 0 { chunk := chunk.(compressedLength := Some(|compressed|)); }
      chunks := chunks + [chunk];
      start := start + chunkSize;
    }
    ok := true;
    assert chunks == Pieces(requestId, compressed, chunkSize);
    AnyOrderAssembles(chunks, requestId, compressed, chunkSize);
  }

  lemma OffsetGrows(c: nat, i: nat, j: nat)
    requires i <= j
    ensures Offset(c, i) <= Offset(c, j)
  {
  }

  lemma BeforeTheEnd(size: nat, c: nat, i: nat)
    requires c >= 1 && i < ChunkCount(size, c)
    ensures Offset(c, i) <= size
  {
    ChunkCountIsTight(size, c);
    OffsetGrows(c, i, ChunkCount(size, c) - 1);
    if size == 0 { assert Offset(c, 0) == 0; }
  }

  /** What goes on the wire: each chunk names the bundle, its place and their number, and only the first
      announces the length. */
  lemma PiecesAre(id: string, d: Bytes, c: nat, i: nat)
    requires c >= 1 && i < |Pieces(id, d, c)|
    ensures var x := Pieces(id, d, c)[i];
            && x.id == id && x.index == i && x.total == |Pieces(id, d, c)| == Max(1, (|d| + c - 1) / c)
            && (x.compressedLength.Some? <==> i == 0) && (i == 0 ==> x.compressedLength == Some(|d|))
            && |x.data| == ChunkLength(|d|, c, i)
  {
  }

  lemma PiecesBundle(id: string, d: Bytes, c: nat)
    requires c >= 1
    ensures Bundle(Pieces(id, d, c)) && Flatten(Datas(Pieces(id, d, c))) == d
  {
    SlicesTile(d, c);
    assert Datas(Pieces(id, d, c)) == Slices(d, c);
  }

  /** Round trip: every rearrangement of the split chunks assembles to the original. */
  lemma AnyOrderAssembles(cs: seq<Chunk>, id: string, d: Bytes, c: nat)
    requires c >= 1 && multiset(cs) == multiset(Pieces(id, d, c))
    ensures Blob(cs) == Some(d)
  {
    PiecesBundle(id, d, c);
    BundleIsUnique(cs, Pieces(id, d, c));
  }

  // ---- Assembling ---------------------------------------------------------

  predicate DistinctIndices(cs: seq<Chunk>) {
    forall i, j :: 0 <= i < j < |cs| ==> cs[i].index != cs[j].index
  }

  lemma OnePerIndex(cs: seq<Chunk>, a: Chunk, b: Chunk)
    requires DistinctIndices(cs) && a in cs && b in cs && a.index == b.index
    ensures a == b
  {
  }

  lemma {:induction false} CountsOne(cs: seq<Chunk>, x: Chunk)
    requires DistinctIndices(cs)
    ensures multiset(cs)[x] == if x in cs then 1 else 0
  {
    if cs != [] {
      var n := |cs| - 1;
      assert cs == cs[..n] + [cs[n]];
      CountsOne(cs[..n], x);
    }
  }

  /** Chunks with distinct indices are a rearrangement of any aligned selection as long as they are. */
  lemma SelectionIsAll(cs: seq<Chunk>, o: seq<Chunk>)
    requires DistinctIndices(cs) && Aligned(o) && |o| == |cs| && forall i :: 0 <= i < |o| ==> o[i] in cs
    ensures multiset(o) == multiset(cs)
  {
    forall x ensures multiset(o)[x] <= multiset(cs)[x] {
      CountsOne(cs, x);
      CountsOne(o, x);
    }
    assert multiset(o) <= multiset(cs);
    var rest := multiset(cs) - multiset(o);
    assert multiset(cs) == multiset(o) + rest;
    assert |multiset(cs)| == |multiset(o)| + |rest|;
  }

  /** Rearranged bundles have distinct indices. */
  lemma BundleIsDistinct(cs: seq<Chunk>, o: seq<Chunk>)
    requires Aligned(o) && multiset(o) == multiset(cs)
    ensures DistinctIndices(cs)
  {
    forall i, j | 0 <= i < j < |cs| ensures cs[i].index != cs[j].index {
      assert cs[i] in multiset(cs) && cs[j] in multiset(cs);
      SameChunk(o, cs[i]);
      SameChunk(o, cs[j]);
      if cs[i] == cs[j] {
        CountsOne(o, cs[i]);
        Repeated(cs, i, j);
      }
    }
  }

  lemma Repeated(cs: seq<Chunk>, i: nat, j: nat)
    requires i < j < |cs| && cs[i] == cs[j]
    ensures multiset(cs)[cs[i]] >= 2
  {
    assert cs == cs[..j] + cs[j..];
    assert cs[i] in multiset(cs[..j]) && cs[j] in multiset(cs[j..]) by {
      assert cs[..j][i] == cs[i] && cs[j..][0] == cs[j];
    }
    assert multiset(cs) == multiset(cs[..j]) + multiset(cs[j..]);
  }

  /** What the assembler checks before it copies holds of every rearranged bundle. */
  lemma BlobChecks(cs: seq<Chunk>) returns (o: seq<Chunk>)
    ensures Blob(cs).Some? ==>
              && Bundle(o) && multiset(o) == multiset(cs) && DistinctIndices(cs)
              && |o| == |cs| && o[0] in cs
              && forall x :: x in cs ==> x.index < |o| && o[x.index] == x && x.id == o[0].id && x.total == |cs|
    ensures Blob(cs).Some? ==> forall i :: 0 <= i < |o| ==> o[i] in cs
  {
    o := [];
    if Blob(cs).Some? {
      o :| Bundle(o) && multiset(o) == multiset(cs);
      BundleIsDistinct(cs, o);
      assert |multiset(o)| == |multiset(cs)|;
      forall i | 0 <= i < |o| ensures o[i] in cs { assert o[i] in multiset(cs); }
      forall x | x in cs ensures x.index < |o| && o[x.index] == x && x.id == o[0].id && x.total == |cs| {
        assert x in multiset(cs);
        SameChunk(o, x);
      }
    }
  }

  /** An in-order selection that is as long as the header says is what the chunks assemble to. */
  lemma SelectionAssembles(cs: seq<Chunk>, sel: seq<Chunk>)
    requires DistinctIndices(cs) && |sel| == |cs| >= 1 && sel[0].compressedLength.Some?
    requires forall i :: 0 <= i < |sel| ==>
               sel[i] in cs && sel[i].index == i && sel[i].id == sel[0].id && sel[i].total == |cs|
    requires sel[0].compressedLength.value == |Flatten(Datas(sel))|
    ensures Blob(cs) == Some(Flatten(Datas(sel)))
  {
    SelectionIsAll(cs, sel);
    BundleIsUnique(cs, sel);
  }

  /** The first chunk with index 0. */
  method FindHead(chunks: seq<Chunk>) returns (head: Option<Chunk>)
    ensures head.Some? ==> head.value in chunks && head.value.index == 0
    ensures head.None? ==> forall c :: c in chunks ==> c.index != 0
  {
    for k := 0 to |chunks|
      invariant forall j :: 0 <= j < k ==> chunks[j].index != 0
    {
      if chunks[k].index == 0 { return Some(chunks[k]); }
    }
    head := None;
  }

  /** The chunks by index; fails on a chunk of another bundle and on a second one of an index. */
  method ByIndex(chunks: seq<Chunk>, head: Chunk) returns (r: Option<map<nat, Chunk>>)
    ensures r.Some? <==>
            DistinctIndices(chunks) && forall c :: c in chunks ==> c.id == head.id && c.total == head.total
    ensures r.Some? ==> forall c :: c in chunks ==> c.index in r.value
    ensures r.Some? ==> forall i :: i in r.value ==> r.value[i] in chunks && r.value[i].index == i
  {
    var byIndex: map<nat, Chunk> := map[];
    ghost var at: map<nat, nat> := map[];
    for k := 0 to |chunks|
      invariant at.Keys == byIndex.Keys
      invariant forall j :: 0 <= j < k ==> chunks[j].id == head.id && chunks[j].total == head.total
      invariant forall j :: 0 <= j < k ==> chunks[j].index in byIndex && at[chunks[j].index] == j
      invariant forall i :: i in byIndex ==> at[i] < k && byIndex[i] == chunks[at[i]] && byIndex[i].index == i
    {
      var c := chunks[k];
      if c.id != head.id || c.total != head.total { return None; }
      if c.index in byIndex {
        assert chunks[at[c.index]].index == chunks[k].index;
        return None;
      }
      byIndex := byIndex[c.index := c];
      at := at[c.index := k];
    }
    r := Some(byIndex);
  }

  method AssembleHistoryChunks(chunks: seq<Chunk>) returns (r: Option<array<byte>>)
    ensures r.Some? <==> Blob(chunks).Some?
    ensures r.Some? ==> fresh(r.value) && r.value[..] == Blob(chunks).value
  {
    ghost var o := BlobChecks(chunks);
    ghost var whole := Blob(chunks).Some?;
    hide Blob, Flatten, DistinctIndices;
    if |chunks| == 0 { return None; }
    var head := FindHead(chunks);
    if head.None? || head.value.compressedLength.None? { return None; }
    var size := head.value.compressedLength.value;
    var total := head.value.total;
    if |chunks| != total { return None; }
    var byIndex := ByIndex(chunks, head.value);
    if byIndex.None? { return None; }
    var parts := [];
    ghost var sel: seq<Chunk> := [];
    for i := 0 to total
      invariant |sel| == |parts| == i
      invariant forall j :: 0 <= j < i ==> j in byIndex.value && sel[j] == byIndex.value[j] && parts[j] == sel[j].data
      invariant whole ==> forall j :: 0 <= j < i ==> sel[j] == o[j]
    {
      assert whole ==> o[i] in chunks && o[i].index == i;
      if i !in byIndex.value { return None; }
      parts := parts + [byIndex.value[i].data];
      sel := sel + [byIndex.value[i]];
    }
    assert parts == Datas(sel);
    assert whole ==> sel == o;
    var ok, data := Assemble(parts, size);
    if !ok { return None; }
    OnePerIndex(chunks, sel[0], head.value);
    SelectionAssembles(chunks, sel);
    r := Some(data);
  }

  // ---- Receiving one chunk at a time --------------------------------------

  /** A bundle being received; a part is None until its chunk has come. */
  datatype Pending = Pending(compressedLength: nat, parts: seq<Option<Bytes>>)

  datatype Outcome = Ignored | Waiting | Complete(blob: Bytes) | Overflow

  predicate Full(parts: seq<Option<Bytes>>) { forall i :: 0 <= i < |parts| ==> parts[i].Some? }

  function Values(parts: seq<Option<Bytes>>): (d: seq<Bytes>)
    requires Full(parts)
    ensures |d| == |parts| && forall i :: 0 <= i < |parts| ==> d[i] == parts[i].value
  {
    seq(|parts|, i requires 0 <= i < |parts| => parts[i].value)
  }

  function Zeros(n: nat): Bytes { seq(n, _ => 0) }

  /** Data copied to the front of a zeroed buffer. */
  function Filled(data: Bytes, size: nat): Outcome {
    if |data| > size then Overflow else Complete(data + Zeros(size - |data|))
  }

  function Unfilled(n: nat): (p: seq<Option<Bytes>>)
    ensures |p| == n && forall i :: 0 <= i < n ==> p[i] == None
  {
    seq(n, _ => None)
  }

  /** handleHistoryChunk up to unpacking the assembled bytes. */
  function ReceiveStep(m: map<string, Pending>, c: Chunk): (map<string, Pending>, Outcome) {
    if c.id !in m && (c.index != 0 || c.compressedLength.None?) then (m, Ignored)
    else if c.id in m && c.total != |m[c.id].parts| then (m, Ignored)
    else
      var p := if c.id in m then m[c.id] else Pending(c.compressedLength.value, Unfilled(c.total));
      if c.index >= |p.parts| || p.parts[c.index].Some? then (m[c.id := p], Ignored)
      else
        var q := p.(parts := p.parts[c.index := Some(c.data)]);
        if !Full(q.parts) then (m[c.id := q], Waiting)
        else
          var r := Filled(Flatten(Values(q.parts)), q.compressedLength);
          (if r.Complete? then m - {c.id} else m[c.id := q], r)
  }

  class HistoryReceiver {
    var pending: map<string, Pending>

    constructor ()
      ensures pending == map[]
    {
      pending := map[];
    }

    /** The copy into the assembled buffer; runs over the end of one that is too short. */
    method Fill(parts: seq<Option<Bytes>>, size: nat) returns (r: Outcome)
      requires Full(parts)
      ensures r == Filled(Flatten(Values(parts)), size)
    {
      var assembled := new byte[size](_ => 0);
      var offset := 0;
      ghost var d := Values(parts);
      for k := 0 to |parts|
        invariant offset == |Flatten(d[..k])| <= size
        invariant assembled[..offset] == Flatten(d[..k])
        invariant forall j :: offset <= j < size ==> assembled[j] == 0
      {
        var part := parts[k].value;
        assert d[..k + 1][..k] == d[..k];
        if offset + |part| > size {
          FlattenGrows(d, k + 1);
          return Overflow;
        }
        forall j | 0 <= j < |part| { assembled[offset + j] := part[j]; }
        assert assembled[..offset + |part|] == Flatten(d[..k]) + part;
        offset := offset + |part|;
      }
      assert d[..|parts|] == d;
      assert assembled[..] == Flatten(d) + Zeros(size - |Flatten(d)|);
      r := Complete(assembled[..]);
    }

    method HandleHistoryChunk(c: Chunk) returns (r: Outcome)
      modifies this
      ensures (pending, r) == ReceiveStep(old(pending), c)
    {
      hide Filled, Flatten;
      if c.id !in pending {
        if c.index != 0 || c.compressedLength.None? { return Ignored; }
        pending := pending[c.id := Pending(c.compressedLength.value, Unfilled(c.total))];
      } else if c.total != |pending[c.id].parts| {
        return Ignored;
      }
      var p := pending[c.id];
      if c.index >= |p.parts| || p.parts[c.index].Some? {
        assert pending == old(pending)[c.id := p];
        return Ignored;
      }
      var q := p.(parts := p.parts[c.index := Some(c.data)]);
      assert pending[c.id := q] == old(pending)[c.id := q];
      pending := pending[c.id := q];
      for k := 0 to |q.parts|
        invariant forall j :: 0 <= j < k ==> q.parts[j].Some?
      {
        if q.parts[k].None? { return Waiting; }
      }
      r := Fill(q.parts, q.compressedLength);
      if r.Complete? {
        assert pending - {c.id} == old(pending) - {c.id};
        pending := pending - {c.id};
      }
    }
  }

  // ---- What one chunk does ------------------------------------------------

  /** The part that chunk c may still fill. */
  ghost predicate Open(m: map<string, Pending>, c: Chunk) {
    if c.id in m then c.total == |m[c.id].parts| && c.index < c.total && m[c.id].parts[c.index].None?
    else c.index == 0 && c.compressedLength.Some? && c.total > 0
  }

  /** A chunk is ignored exactly when there is no open part for it: it comes before its bundle's header,
      disagrees on the number of chunks, or is a repeat. Then nothing collected changes. */
  lemma IgnoredIff(m: map<string, Pending>, c: Chunk)
    ensures ReceiveStep(m, c).1.Ignored? <==> !Open(m, c)
    ensures ReceiveStep(m, c).1.Ignored? ==> ReceiveStep(m, c).0 == m || (c.id !in m && c.total == 0)
  {
    hide Flatten;
    if c.id in m { assert m[c.id := m[c.id]] == m; }
  }

  /** Other bundles are never touched, and a bundle that is complete is forgotten. */
  lemma ReceiveSpares(m: map<string, Pending>, c: Chunk, id: string)
    ensures id != c.id ==> (id in ReceiveStep(m, c).0 <==> id in m)
    ensures id != c.id && id in m ==> ReceiveStep(m, c).0[id] == m[id]
    ensures ReceiveStep(m, c).1.Complete? ==> ReceiveStep(m, c).0 == m - {c.id}
  {
    hide Flatten;
  }

  // ---- The receiver against the assembler ---------------------------------

  function After(m: map<string, Pending>, s: seq<Chunk>): map<string, Pending> {
    if s == [] then m else ReceiveStep(After(m, s[..|s| - 1]), s[|s| - 1]).0
  }

  predicate HeaderBy(s: seq<Chunk>, id: string, k: nat)
    requires k < |s|
  {
    exists j :: 0 <= j <= k && s[j].id == id && s[j].index == 0
  }

  /** The indices of the bundle's chunks that came with or after its first chunk 0. */
  function Seen(s: seq<Chunk>, id: string): set<nat> {
    set k | 0 <= k < |s| && s[k].id == id && HeaderBy(s, id, k) :: s[k].index
  }

  predicate Covers(got: set<nat>, n: nat) { forall i :: 0 <= i < n ==> i in got }

  ghost predicate FromBundle(s: seq<Chunk>, o: seq<Chunk>)
    requires Aligned(o)
  {
    forall k :: 0 <= k < |s| && s[k].id == o[0].id ==> s[k] in o
  }

  /** The bundle's entry holds exactly the parts seen. */
  ghost predicate Tracks(m: map<string, Pending>, o: seq<Chunk>, got: set<nat>)
    requires Aligned(o)
  {
    if got == {} then o[0].id !in m
    else
      && o[0].id in m && m[o[0].id].compressedLength == o[0].compressedLength.value
      && |m[o[0].id].parts| == |o|
      && forall i :: 0 <= i < |o| ==> m[o[0].id].parts[i] == if i in got then Some(o[i].data) else None
  }

  lemma HeaderStep(s: seq<Chunk>, c: Chunk, id: string)
    ensures forall k :: 0 <= k < |s| ==> HeaderBy(s + [c], id, k) == HeaderBy(s, id, k)
    ensures c.id == id ==> (HeaderBy(s + [c], id, |s|) <==> c.index == 0 || Seen(s, id) != {})
  {
    forall k | 0 <= k < |s| ensures HeaderBy(s + [c], id, k) == HeaderBy(s, id, k) {
      if HeaderBy(s, id, k) {
        var j :| 0 <= j <= k && s[j].id == id && s[j].index == 0;
        assert (s + [c])[j] == s[j];
      }
    }
    if c.id == id && HeaderBy(s + [c], id, |s|) && c.index != 0 {
      var j :| 0 <= j <= |s| && (s + [c])[j].id == id && (s + [c])[j].index == 0;
      assert HeaderBy(s, id, j);
      assert s[j].index in Seen(s, id);
    }
    if Seen(s, id) != {} {
      var i :| i in Seen(s, id);
      var k :| 0 <= k < |s| && s[k].id == id && HeaderBy(s, id, k);
      var j :| 0 <= j <= k && s[j].id == id && s[j].index == 0;
      assert (s + [c])[j] == s[j];
    }
    if c.index == 0 && c.id == id { assert (s + [c])[|s|] == c; }
  }

  lemma SeenStep(s: seq<Chunk>, c: Chunk, id: string)
    ensures Seen(s + [c], id) ==
            if c.id == id && (c.index == 0 || Seen(s, id) != {}) then Seen(s, id) + {c.index} else Seen(s, id)
  {
    HeaderStep(s, c, id);
    hide HeaderBy;
    var t := s + [c];
    assert t[|s|] == c && forall k :: 0 <= k < |s| ==> t[k] == s[k];
    forall i ensures i in Seen(s, id) ==> i in Seen(t, id) {
      if i in Seen(s, id) {
        var k :| 0 <= k < |s| && s[k].id == id && HeaderBy(s, id, k) && s[k].index == i;
        assert t[k].id == id && HeaderBy(t, id, k) && t[k].index == i;
      }
    }
    forall i | i in Seen(t, id)
      ensures i in Seen(s, id) || (c.id == id && (c.index == 0 || Seen(s, id) != {}) && i == c.index)
    {
      var k :| 0 <= k < |t| && t[k].id == id && HeaderBy(t, id, k) && t[k].index == i;
      if k < |s| { assert s[k].index in Seen(s, id); }
    }
    if c.id == id && (c.index == 0 || Seen(s, id) != {}) {
      assert t[|s|].index in Seen(t, id);
    }
  }

  /** One chunk, against the parts seen so far. */
  lemma ReceiveTracks(m: map<string, Pending>, c: Chunk, o: seq<Chunk>, got: set<nat>)
    requires Aligned(o) && Tracks(m, o, got) && !Covers(got, |o|) && (c.id == o[0].id ==> c in o)
    ensures var now := if c.id == o[0].id && (c.index == 0 || got != {}) then got + {c.index} else got;
            var r := ReceiveStep(m, c);
            if Covers(now, |o|)
            then r.1 == Filled(Flatten(Datas(o)), o[0].compressedLength.value) && c.id == o[0].id
            else Tracks(r.0, o, now) && (c.id == o[0].id ==> r.1.Ignored? || r.1.Waiting?)
  {
    hide Filled, Flatten;
    if c.id == o[0].id && (c.index == 0 || got != {}) {
      assert c in multiset(o);
      SameChunk(o, c);
      var now := got + {c.index};
      var p := if c.id in m then m[c.id] else Pending(c.compressedLength.value, Unfilled(c.total));
      if c.index !in got {
        var q := p.(parts := p.parts[c.index := Some(c.data)]);
        assert forall i :: 0 <= i < |o| ==> q.parts[i] == if i in now then Some(o[i].data) else None;
        assert Full(q.parts) <==> Covers(now, |o|);
        if Covers(now, |o|) {
          assert Values(q.parts) == Datas(o);
        }
      } else {
        assert now == got;
      }
    }
  }

  lemma {:induction false} RunTracks(m: map<string, Pending>, s: seq<Chunk>, o: seq<Chunk>)
    requires Aligned(o) && o[0].id !in m && FromBundle(s, o)
    requires !Covers(Seen(s, o[0].id), |o|)
    ensures Tracks(After(m, s), o, Seen(s, o[0].id))
  {
    if s != [] {
      var n := |s| - 1;
      assert s == s[..n] + [s[n]];
      SeenStep(s[..n], s[n], o[0].id);
      RunTracks(m, s[..n], o);
      ReceiveTracks(After(m, s[..n]), s[n], o, Seen(s[..n], o[0].id));
    }
  }

  /** The receiver completes a bundle exactly with the chunk that makes every index seen with or
      after chunk 0, whatever the order, the duplicates and the other bundles in between. */
  lemma ReceiverCompletes(m: map<string, Pending>, s: seq<Chunk>, c: Chunk, o: seq<Chunk>)
    requires Bundle(o) && o[0].id !in m && FromBundle(s + [c], o) && c.id == o[0].id
    requires !Covers(Seen(s, o[0].id), |o|)
    ensures var r := ReceiveStep(After(m, s), c).1;
            if Covers(Seen(s + [c], o[0].id), |o|)
            then r == Complete(Flatten(Datas(o))) && Blob(o) == Some(r.blob) && c.id !in ReceiveStep(After(m, s), c).0
            else r.Ignored? || r.Waiting?
  {
    ReceiveSpares(After(m, s), c, c.id);
    hide Seen, Flatten, ReceiveStep;
    assert forall k :: 0 <= k < |s| ==> (s + [c])[k] == s[k];
    assert (s + [c])[|s|] == c;
    RunTracks(m, s, o);
    SeenStep(s, c, o[0].id);
    ReceiveTracks(After(m, s), c, o, Seen(s, o[0].id));
    BundleIsUnique(o, o);
    assert Zeros(0) == [];
  }

  /** Fed the header first, nothing is lost: an index is seen as soon as its chunk has come. */
  lemma HeaderFirst(s: seq<Chunk>, id: string)
    requires s != [] && s[0].id == id && s[0].index == 0
    ensures Seen(s, id) == set k | 0 <= k < |s| && s[k].id == id :: s[k].index
  {
  }

  /** What the receiver makes of its parts: as many bytes as announced, the parts and then zeros; or an
      overflow, exactly if the parts are longer. */
  lemma FilledIs(data: Bytes, size: nat)
    ensures var r := Filled(data, size);
            && (r.Overflow? <==> |data| > size)
            && (|data| <= size ==> r.Complete? && |r.blob| == size && r.blob[..|data|] == data
                                   && forall k :: |data| <= k < size ==> r.blob[k] == 0)
  {
  }

  /** The receiver and the assembler agree on an aligned set of chunks exactly when it is not
      shorter than announced: the receiver pads a short one with zeros where the assembler fails. */
  lemma AgreeUnlessShort(o: seq<Chunk>)
    requires Aligned(o)
    ensures var r := Filled(Flatten(Datas(o)), o[0].compressedLength.value);
            r == (if Blob(o).Some? then Complete(Blob(o).value) else Overflow)
            <==> |Flatten(Datas(o))| >= o[0].compressedLength.value
  {
    if Bundle(o) {
      BundleIsUnique(o, o);
      assert Zeros(0) == [];
    } else if Blob(o).Some? {
      var p :| Bundle(p) && multiset(p) == multiset(o);
      OrderIsUnique(p, o);
    }
  }
}
