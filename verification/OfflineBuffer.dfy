/** The frames a bucket keeps while the other seat is offline
    (server/internal/bucket/bucket.go). */
module OfflineBuffers {
  import opened Wrappers
  import opened Chunking

  datatype Frame = Frame(data: Bytes, binary: bool, expiresAt: int)

  /** The caps of the registry; NewRegistry replaces caps that are not positive. */
  datatype Caps = Caps(maxFrames: nat, maxBytes: nat, ttl: int) {
    predicate Ok() { maxFrames >= 1 && maxBytes >= 1 }
  }

  function Normalize(maxFrames: int, maxBytes: int, ttl: int): (c: Caps)
    ensures c.Ok()
  {
    Caps(if maxFrames <= 0 then 32 else maxFrames, if maxBytes <= 0 then 16 * 1024 * 1024 else maxBytes, ttl)
  }

  function ByteCount(b: seq<Frame>): nat { if b == [] then 0 else |b[0].data| + ByteCount(b[1..]) }

  /** pruneBufferLocked: the frames not yet expired, in order. */
  function Alive(b: seq<Frame>, now: int): seq<Frame> {
    if b == [] then [] else Alive(b[..|b| - 1], now) + if now < b[|b| - 1].expiresAt then [b[|b| - 1]] else []
  }

  /** The eviction loop: oldest frames go until `size` more bytes fit, or none is left. */
  function Evict(c: Caps, b: seq<Frame>, size: nat): seq<Frame> {
    if b != [] && (|b| >= c.maxFrames || ByteCount(b) + size > c.maxBytes) then Evict(c, b[1..], size) else b
  }

  /** BufferIfAlone once the other seat is known to be offline. */
  function Offer(c: Caps, b: seq<Frame>, data: Bytes, binary: bool, now: int): seq<Frame> {
    var kept := Evict(c, Alive(b, now), |data|);
    if |data| > c.maxBytes then kept else kept + [Frame(data, binary, now + c.ttl)]
  }

  // ---- The specification --------------------------------------------------

  /** Within both caps and wholly unexpired. */
  predicate Fits(c: Caps, s: seq<Frame>, now: int) {
    |s| <= c.maxFrames && ByteCount(s) <= c.maxBytes && forall k :: 0 <= k < |s| ==> now < s[k].expiresAt
  }

  /** The longest suffix that fits. */
  function Longest(c: Caps, h: seq<Frame>, now: int): seq<Frame> {
    if h == [] || Fits(c, h, now) then h else Longest(c, h[1..], now)
  }

  /** It is the longest: it is a suffix, it fits, and no longer suffix does. */
  lemma {:induction false} LongestIsLongest(c: Caps, h: seq<Frame>, now: int)
    ensures |Longest(c, h, now)| <= |h|
    ensures Longest(c, h, now) == h[|h| - |Longest(c, h, now)|..]
    ensures Fits(c, Longest(c, h, now), now)
    ensures forall k :: 0 <= k < |h| - |Longest(c, h, now)| ==> !Fits(c, h[k..], now)
    decreases |h|
  {
    if h != [] && !Fits(c, h, now) {
      LongestIsLongest(c, h[1..], now);
      forall k | 0 <= k < |h| - |Longest(c, h, now)| ensures !Fits(c, h[k..], now) {
        if k == 0 { assert h[0..] == h; } else { assert h[k..] == h[1..][k - 1..]; }
      }
    }
  }

  /** Expiry times in the order the frames were offered. */
  predicate Ordered(h: seq<Frame>) { forall j, k :: 0 <= j < k < |h| ==> h[j].expiresAt <= h[k].expiresAt }

  lemma {:induction false} ByteCountSplit(a: seq<Frame>, b: seq<Frame>)
    ensures ByteCount(a + b) == ByteCount(a) + ByteCount(b)
    decreases |a|
  {
    if a == [] { assert a + b == b; } else {
      assert (a + b)[1..] == a[1..] + b;
      ByteCountSplit(a[1..], b);
    }
  }

  lemma {:induction false} AliveSplit(a: seq<Frame>, b: seq<Frame>, now: int)
    ensures Alive(a + b, now) == Alive(a, now) + Alive(b, now)
    decreases |b|
  {
    if b == [] { assert a + b == a; } else {
      assert (a + b)[..|a + b| - 1] == a + b[..|b| - 1];
      AliveSplit(a, b[..|b| - 1], now);
    }
  }

  lemma AliveNone(now: int)
    ensures Alive([], now) == []
  {
  }

  lemma AliveSnoc(b: seq<Frame>, k: nat, now: int)
    requires k < |b|
    ensures Alive(b[..k + 1], now) == Alive(b[..k], now) + if now < b[k].expiresAt then [b[k]] else []
  {
    assert b[..k + 1][..k] == b[..k];
  }

  lemma {:induction false} AliveOfUnexpired(b: seq<Frame>, now: int)
    requires forall k :: 0 <= k < |b| ==> now < b[k].expiresAt
    ensures Alive(b, now) == b
    decreases |b|
  {
    if b != [] { AliveOfUnexpired(b[..|b| - 1], now); }
  }

  /** In offer order the unexpired frames are a suffix. */
  lemma {:induction false} AliveIsSuffix(b: seq<Frame>, now: int)
    requires Ordered(b)
    ensures Alive(b, now) == if b == [] || now < b[0].expiresAt then b else Alive(b[1..], now)
  {
    if b != [] {
      assert b == [b[0]] + b[1..];
      AliveSplit([b[0]], b[1..], now);
      if now < b[0].expiresAt { AliveOfUnexpired(b, now); }
    }
  }

  /** What survives until `later`: pruning the longest suffix gives the longest suffix then. */
  lemma {:induction false} LongestLater(c: Caps, h: seq<Frame>, now: int, later: int)
    requires Ordered(h) && now <= later
    ensures Longest(c, h, later) == Alive(Longest(c, h, now), later)
    decreases |h|
  {
    if h == [] {
    } else if Fits(c, h, now) {
      FittingThenAlive(c, h, later);
    } else {
      assert !Fits(c, h, later);
      LongestLater(c, h[1..], now, later);
    }
  }

  lemma HeadDecides(c: Caps, h: seq<Frame>, now: int)
    requires Ordered(h) && |h| <= c.maxFrames && ByteCount(h) <= c.maxBytes
    ensures Fits(c, h, now) <==> h == [] || now < h[0].expiresAt
  {
  }

  /** Within the caps, only expiry matters. */
  lemma {:induction false} FittingThenAlive(c: Caps, h: seq<Frame>, later: int)
    requires Ordered(h) && |h| <= c.maxFrames && ByteCount(h) <= c.maxBytes
    ensures Longest(c, h, later) == Alive(h, later)
    decreases |h|
  {
    AliveIsSuffix(h, later);
    HeadDecides(c, h, later);
    assert h != [] ==> Ordered(h[1..]) && ByteCount(h[1..]) <= ByteCount(h);
    hide Alive, Fits, Ordered, ByteCount;
    if h != [] && !(later < h[0].expiresAt) { FittingThenAlive(c, h[1..], later); }
  }

  /** Making room for one more frame: the eviction loop finds the longest suffix. */
  lemma {:induction false} EvictIsLongest(c: Caps, b: seq<Frame>, f: Frame, now: int)
    requires c.Ok() && |f.data| <= c.maxBytes && now < f.expiresAt
    requires forall k :: 0 <= k < |b| ==> now < b[k].expiresAt
    ensures Evict(c, b, |f.data|) + [f] == Longest(c, b + [f], now)
    decreases |b|
  {
    ByteCountSplit(b, [f]);
    if b == [] {
      assert b + [f] == [f];
    } else if |b| >= c.maxFrames || ByteCount(b) + |f.data| > c.maxBytes {
      assert (b + [f])[1..] == b[1..] + [f];
      EvictIsLongest(c, b[1..], f, now);
    }
  }

  /** A frame beyond the byte cap empties the buffer and leaves no fitting suffix. */
  lemma {:induction false} OversizeEmpties(c: Caps, b: seq<Frame>, f: Frame, now: int)
    requires |f.data| > c.maxBytes
    ensures Evict(c, b, |f.data|) == []
    ensures Longest(c, b + [f], now) == []
    decreases |b|
  {
    ByteCountSplit(b, [f]);
    if b == [] {
      assert b + [f] == [f] && [f][1..] == [];
    } else {
      assert (b + [f])[1..] == b[1..] + [f];
      OversizeEmpties(c, b[1..], f, now);
    }
  }

  /** Only the longest suffix of the past matters for the future. */
  lemma {:induction false} LongestAppend(c: Caps, h: seq<Frame>, f: Frame, now: int)
    ensures Longest(c, h + [f], now) == Longest(c, Longest(c, h, now) + [f], now)
    decreases |h|
  {
    if h != [] && !Fits(c, h, now) {
      ByteCountSplit(h, [f]);
      assert forall k :: 0 <= k < |h| ==> (h + [f])[k] == h[k];
      assert !Fits(c, h + [f], now);
      assert (h + [f])[1..] == h[1..] + [f];
      LongestAppend(c, h[1..], f, now);
    }
  }

  /** The refinement: from `last` on, what is still unexpired in the buffer is at every time
      the longest suffix, then, of all frames offered since the last drain. */
  ghost predicate Refines(c: Caps, b: seq<Frame>, offered: seq<Frame>, last: int) {
    && Ordered(offered) && Ordered(b)
    && (forall k :: 0 <= k < |offered| ==> offered[k].expiresAt <= last + c.ttl)
    && (forall k :: 0 <= k < |b| ==> b[k].expiresAt <= last + c.ttl)
    && forall now :: now >= last ==> Alive(b, now) == Longest(c, offered, now)
  }

  lemma {:induction false} AliveSubset(b: seq<Frame>, now: int)
    ensures forall k :: 0 <= k < |Alive(b, now)| ==> Alive(b, now)[k] in b && now < Alive(b, now)[k].expiresAt
    ensures Ordered(b) ==> Ordered(Alive(b, now))
    decreases |b|
  {
    if b != [] {
      AliveSubset(b[..|b| - 1], now);
      if Ordered(b) {
        forall j, k | 0 <= j < k < |Alive(b, now)| ensures Alive(b, now)[j].expiresAt <= Alive(b, now)[k].expiresAt {
          if k == |Alive(b[..|b| - 1], now)| { assert Alive(b[..|b| - 1], now)[j] in b[..|b| - 1]; }
        }
      }
    }
  }

  lemma {:induction false} EvictIsSuffix(c: Caps, b: seq<Frame>, size: nat)
    ensures |Evict(c, b, size)| <= |b| && Evict(c, b, size) == b[|b| - |Evict(c, b, size)|..]
    decreases |b|
  {
    if b != [] && (|b| >= c.maxFrames || ByteCount(b) + size > c.maxBytes) { EvictIsSuffix(c, b[1..], size); }
  }

  /** What survives pruning and eviction is ordered and unexpired. */
  lemma KeptShape(c: Caps, b: seq<Frame>, size: nat, now: int, limit: int)
    requires Ordered(b) && forall k :: 0 <= k < |b| ==> b[k].expiresAt <= limit
    ensures var kept := Evict(c, Alive(b, now), size);
            Ordered(kept) && forall k :: 0 <= k < |kept| ==> now < kept[k].expiresAt <= limit
  {
    var pruned := Alive(b, now);
    AliveSubset(b, now);
    EvictIsSuffix(c, pruned, size);
    var kept := Evict(c, pruned, size);
    KeptIsOrdered(pruned, kept);
    forall k | 0 <= k < |kept| ensures now < kept[k].expiresAt <= limit {
      assert kept[k] == pruned[|pruned| - |kept| + k];
    }
  }

  /** Right after an offer the buffer is exactly the longest suffix, unless the new frame is
      expired on arrival (a time-to-live that is not positive) and was kept all the same. */
  lemma OfferIsLongest(c: Caps, b: seq<Frame>, offered: seq<Frame>, last: int, data: Bytes, binary: bool, now: int)
    requires c.Ok() && Refines(c, b, offered, last) && last <= now
    ensures Offer(c, b, data, binary, now) == Longest(c, offered + [Frame(data, binary, now + c.ttl)], now)
            <==> c.ttl > 0 || |data| > c.maxBytes
  {
    var f := Frame(data, binary, now + c.ttl);
    var pruned := Alive(b, now);
    assert pruned == Longest(c, offered, now);
    AliveSubset(b, now);
    LongestAppend(c, offered, f, now);
    hide Refines;
    if |data| > c.maxBytes {
      OversizeEmpties(c, pruned, f, now);
    } else if c.ttl > 0 {
      EvictIsLongest(c, pruned, f, now);
    } else {
      assert (pruned + [f])[|pruned|] == f;
      LongestIsLongest(c, pruned + [f], now);
    }
  }

  /** From the offer on, pruning what the buffer holds gives the longest suffix of the time. */
  lemma OfferLater(c: Caps, b: seq<Frame>, offered: seq<Frame>, last: int, data: Bytes, binary: bool, now: int, later: int)
    requires c.Ok() && Refines(c, b, offered, last) && last <= now <= later
    ensures Alive(Offer(c, b, data, binary, now), later)
            == Longest(c, offered + [Frame(data, binary, now + c.ttl)], later)
  {
    var h := offered + [Frame(data, binary, now + c.ttl)];
    OfferIsLongest(c, b, offered, last, data, binary, now);
    if c.ttl > 0 || |data| > c.maxBytes {
      assert Ordered(h);
      hide Refines, Offer, Alive, Longest, Ordered;
      LongestLater(c, h, now, later);
    } else {
      KeptShape(c, b, |data|, now, last + c.ttl);
      assert forall k :: 0 <= k < |h| ==> h[k].expiresAt <= later;
      assert forall k :: 0 <= k < |Offer(c, b, data, binary, now)| ==> Offer(c, b, data, binary, now)[k].expiresAt <= later;
      hide Refines, Alive, Longest, Evict;
      StaleLongest(c, h, later);
      StaleAlive(Offer(c, b, data, binary, now), later);
    }
  }

  /** Every offer keeps the refinement, with a monotone clock. */
  lemma OfferRefines(c: Caps, b: seq<Frame>, offered: seq<Frame>, last: int, data: Bytes, binary: bool, now: int)
    requires c.Ok() && Refines(c, b, offered, last) && last <= now
    ensures Refines(c, Offer(c, b, data, binary, now), offered + [Frame(data, binary, now + c.ttl)], now)
  {
    hide Alive, Longest, Evict;
    KeptShape(c, b, |data|, now, last + c.ttl);
    forall later | later >= now
      ensures Alive(Offer(c, b, data, binary, now), later)
              == Longest(c, offered + [Frame(data, binary, now + c.ttl)], later)
    {
      OfferLater(c, b, offered, last, data, binary, now, later);
    }
  }

  lemma KeptIsOrdered(b: seq<Frame>, kept: seq<Frame>)
    requires Ordered(b) && |kept| <= |b| && kept == b[|b| - |kept|..]
    ensures Ordered(kept)
  {
  }

  lemma {:induction false} StaleLongest(c: Caps, h: seq<Frame>, now: int)
    requires forall k :: 0 <= k < |h| ==> h[k].expiresAt <= now
    ensures Longest(c, h, now) == []
    decreases |h|
  {
    if h != [] { StaleLongest(c, h[1..], now); }
  }

  lemma {:induction false} StaleAlive(h: seq<Frame>, now: int)
    requires forall k :: 0 <= k < |h| ==> h[k].expiresAt <= now
    ensures Alive(h, now) == []
    decreases |h|
  {
    if h != [] { StaleAlive(h[..|h| - 1], now); }
  }

  /** The buffer as a growable slice: `frames[lo..hi]` of a backing array. Pruning compacts
      it in place, eviction moves its start, appending reallocates when the array is full. */
  class OfflineBuffer {
    const caps: Caps
    var frames: array<Frame>
    var lo: nat
    var hi: nat
    ghost var offered: seq<Frame>
    ghost var last: int

    ghost predicate Valid()
      reads this, frames
    {
      caps.Ok() && lo <= hi <= frames.Length && Refines(caps, frames[lo..hi], offered, last)
    }

    ghost function Contents(): seq<Frame>
      requires lo <= hi <= frames.Length
      reads this, frames
    {
      frames[lo..hi]
    }

    constructor (maxFrames: int, maxBytes: int, ttl: int, ghost now: int)
      ensures Valid() && fresh(frames) && caps == Normalize(maxFrames, maxBytes, ttl)
      ensures caps.maxFrames == (if maxFrames > 0 then maxFrames else 32)
      ensures caps.maxBytes == (if maxBytes > 0 then maxBytes else 16777216) && caps.ttl == ttl
      ensures Contents() == [] && offered == [] && last == now
    {
      caps := Normalize(maxFrames, maxBytes, ttl);
      frames := new Frame[0];
      lo, hi, offered, last := 0, 0, [], now;
    }

    /** pruneBufferLocked: keeps the unexpired frames, compacting the slice in place. */
    method Prune(now: int)
      requires lo <= hi <= frames.Length
      modifies this`hi, frames
      ensures lo <= hi <= frames.Length && hi <= old(hi)
      ensures Contents() == Alive(old(Contents()), now)
    {
      hide Alive, ByteCount;
      var dst := lo;
      ghost var was, kept := frames[lo..hi], [];
      AliveNone(now);
      for k := 0 to hi - lo
        invariant hi == old(hi) && dst == lo + |kept| <= lo + k
        invariant kept == Alive(was[..k], now)
        invariant frames[lo..dst] == kept
        invariant frames[lo + k..hi] == was[k..]
      {
        var f := frames[lo + k];
        assert f == frames[lo + k..hi][0] == was[k];
        assert frames[lo + k + 1..hi] == was[k..][1..] == was[k + 1..];
        AliveSnoc(was, k, now);
        if now < f.expiresAt {
          frames[dst] := f;
          dst := dst + 1;
          kept := kept + [f];
          assert frames[lo..dst] == kept;
        }
      }
      assert was[..|was|] == was;
      hi := dst;
      assert frames[lo..hi] == kept;
    }

    /** bufferBytes. */
    method CountBytes() returns (n: nat)
      requires lo <= hi <= frames.Length
      ensures n == ByteCount(Contents())
    {
      n := 0;
      var k := hi;
      while k > lo
        invariant lo <= k <= hi
        invariant n == ByteCount(frames[k..hi])
      {
        k := k - 1;
        assert frames[k..hi] == [frames[k]] + frames[k + 1..hi];
        n := n + |frames[k].data|;
      }
    }

    method Append(f: Frame)
      requires lo <= hi <= frames.Length
      modifies this`frames, this`lo, this`hi, frames
      ensures frames == old(frames) || fresh(frames)
      ensures lo <= hi <= frames.Length && Contents() == old(Contents()) + [f]
    {
      if hi == frames.Length {
        var bigger := new Frame[2 * (hi - lo) + 1];
        ghost var was := frames[lo..hi];
        forall k | 0 <= k < hi - lo {
          bigger[k] := frames[lo + k];
        }
        assert bigger[..hi - lo] == was;
        frames, lo, hi := bigger, 0, hi - lo;
      }
      frames[hi] := f;
      hi := hi + 1;
    }

    /** The eviction loop. */
    method MakeRoom(size: nat)
      requires lo <= hi <= frames.Length
      modifies this`lo
      ensures lo <= hi
      ensures Contents() == Evict(caps, old(Contents()), size)
    {
      var held := CountBytes();
      while hi - lo >= caps.maxFrames || held + size > caps.maxBytes
        invariant lo <= hi && held == ByteCount(frames[lo..hi])
        invariant Evict(caps, frames[lo..hi], size) == Evict(caps, old(frames[lo..hi]), size)
        decreases hi - lo
      {
        if lo == hi { break; }
        assert frames[lo..hi][1..] == frames[lo + 1..hi];
        lo := lo + 1;
        held := CountBytes();
      }
    }

    /** BufferIfAlone: false when the other seat is connected, else the frame is taken. */
    method BufferIfAlone(otherConnected: bool, data: Bytes, binary: bool, now: int) returns (buffered: bool)
      requires Valid() && last <= now
      modifies this, frames
      ensures Valid() && (frames == old(frames) || fresh(frames))
      ensures buffered <==> !otherConnected
      ensures !buffered ==> Contents() == old(Contents()) && offered == old(offered) && last == old(last)
      ensures buffered ==> offered == old(offered) + [Frame(data, binary, now + caps.ttl)] && last == now
      ensures buffered ==> Contents() == Offer(caps, old(Contents()), data, binary, now)
      ensures buffered && (caps.ttl > 0 || |data| > caps.maxBytes) ==> Contents() == Longest(caps, offered, now)
    {
      hide Refines, Evict, Alive, Longest;
      if otherConnected { return false; }
      ghost var was := Contents();
      Prune(now);
      MakeRoom(|data|);
      OfferRefines(caps, was, offered, last, data, binary, now);
      OfferIsLongest(caps, was, offered, last, data, binary, now);
      offered, last := offered + [Frame(data, binary, now + caps.ttl)], now;
      if |data| > caps.maxBytes { return true; }
      Append(Frame(data, binary, now + caps.ttl));
      return true;
    }

    /** DrainBuffer hands out exactly the longest fitting suffix, for any time-to-live. */
    method Drain(now: int) returns (drained: seq<Frame>)
      requires Valid() && last <= now
      modifies this, frames
      ensures Valid() && fresh(frames) && Contents() == [] && offered == [] && last == now
      ensures drained == Longest(caps, old(offered), now)
    {
      Prune(now);
      drained := frames[lo..hi];
      frames, lo, hi := new Frame[0], 0, 0;
      offered, last := [], now;
    }
  }
}
