/** Create windows and per-IP bucket counts (server/internal/ratelimit/ratelimit.go). */
module RateLimits {
  import opened Wrappers

  datatype Window = Window(start: int, count: nat)

  /** AllowCreate for one IP. */
  function CreateStep(w: Option<Window>, now: int, length: nat, limit: int): (Option<Window>, bool) {
    if w.None? || now - w.value.start >= length then (Some(Window(now, 1)), true)
    else if w.value.count >= limit then (w, false)
    else (Some(w.value.(count := w.value.count + 1)), true)
  }

  function Count(m: map<string, nat>, ip: string): nat { if ip in m then m[ip] else 0 }

  /** TryAcquireBucket and ReleaseBucket; an IP whose count falls to zero is forgotten. */
  function AcquireStep(m: map<string, nat>, ip: string, max: int): (map<string, nat>, bool) {
    if Count(m, ip) >= max then (m, false) else (m[ip := Count(m, ip) + 1], true)
  }

  function ReleaseStep(m: map<string, nat>, ip: string): map<string, nat> {
    if Count(m, ip) <= 1 then m - {ip} else m[ip := Count(m, ip) - 1]
  }

  class Limiter {
    const createWindow: nat
    const createLimit: int
    const maxBuckets: int
    var creates: map<string, Window>
    var buckets: map<string, nat>

    constructor (createPerMin: int, maxBuckets: int)
      ensures createWindow == 60000 && createLimit == createPerMin && this.maxBuckets == maxBuckets
      ensures creates == map[] && buckets == map[]
    {
      createWindow, createLimit, this.maxBuckets := 60000, createPerMin, maxBuckets;
      creates, buckets := map[], map[];
    }

    ghost function WindowOf(ip: string): Option<Window>
      reads this
    {
      if ip in creates then Some(creates[ip]) else None
    }

    method AllowCreate(ip: string, now: int) returns (ok: bool)
      modifies this`creates
      ensures (WindowOf(ip), ok) == CreateStep(old(WindowOf(ip)), now, createWindow, createLimit)
      ensures forall other :: other != ip ==> WindowOf(other) == old(WindowOf(other))
    {
      if ip !in creates || now - creates[ip].start >= createWindow {
        creates := creates[ip := Window(now, 1)];
        return true;
      }
      if creates[ip].count >= createLimit { return false; }
      creates := creates[ip := creates[ip].(count := creates[ip].count + 1)];
      return true;
    }

    method TryAcquireBucket(ip: string) returns (ok: bool)
      modifies this`buckets
      ensures (buckets, ok) == AcquireStep(old(buckets), ip, maxBuckets)
    {
      var n := if ip in buckets then buckets[ip] else 0;
      if n >= maxBuckets { return false; }
      buckets := buckets[ip := n + 1];
      return true;
    }

    method ReleaseBucket(ip: string)
      modifies this`buckets
      ensures buckets == ReleaseStep(old(buckets), ip)
    {
      var held: int := if ip in buckets then buckets[ip] else 0;
      var n := held - 1;
      if n <= 0 {
        buckets := buckets - {ip};
        return;
      }
      buckets := buckets[ip := n];
    }
  }

  // ---- Sliding bound on creates -------------------------------------------

  function WindowAfter(w: Option<Window>, calls: seq<int>, length: nat, limit: int): Option<Window>
    decreases |calls|
  {
    if calls == [] then w else WindowAfter(CreateStep(w, calls[0], length, limit).0, calls[1..], length, limit)
  }

  /** How many of the calls are allowed. */
  function Allowed(w: Option<Window>, calls: seq<int>, length: nat, limit: int): nat
    decreases |calls|
  {
    if calls == [] then 0
    else
      var r := CreateStep(w, calls[0], length, limit);
      (if r.1 then 1 else 0) + Allowed(r.0, calls[1..], length, limit)
  }

  function AtLeastOne(limit: int): nat { if limit < 1 then 1 else limit }

  /** Once a window has started inside the interval, only its remaining budget is left. */
  lemma {:induction false} AllowedInWindow(w: Option<Window>, calls: seq<int>, length: nat, limit: int, from: int)
    requires w.Some? && from <= w.value.start && w.value.count <= AtLeastOne(limit)
    requires forall k :: 0 <= k < |calls| ==> calls[k] < from + length
    ensures Allowed(w, calls, length, limit) <= AtLeastOne(limit) - w.value.count
    decreases |calls|
  {
    if calls != [] {
      AllowedInWindow(CreateStep(w, calls[0], length, limit).0, calls[1..], length, limit, from);
    }
  }

  /** Counts never exceed the limit (a first create is allowed whatever the limit). */
  lemma {:induction false} WindowCountBound(w: Option<Window>, calls: seq<int>, length: nat, limit: int)
    requires w.Some? ==> w.value.count <= AtLeastOne(limit)
    ensures WindowAfter(w, calls, length, limit).Some? ==>
              WindowAfter(w, calls, length, limit).value.count <= AtLeastOne(limit)
    decreases |calls|
  {
    if calls != [] { WindowCountBound(CreateStep(w, calls[0], length, limit).0, calls[1..], length, limit); }
  }

  lemma {:induction false} AllowedInInterval(w: Option<Window>, calls: seq<int>, length: nat, limit: int, from: int)
    requires w.Some? ==> w.value.count <= AtLeastOne(limit)
    requires forall k :: 0 <= k < |calls| ==> from <= calls[k] < from + length
    ensures Allowed(w, calls, length, limit) <=
            2 * AtLeastOne(limit) - (if w.Some? then w.value.count else AtLeastOne(limit))
    decreases |calls|
  {
    if calls != [] {
      var r := CreateStep(w, calls[0], length, limit);
      if r.0.value.start == calls[0] && r.0.value.count == 1 {
        AllowedInWindow(r.0, calls[1..], length, limit, from);
      } else {
        AllowedInInterval(r.0, calls[1..], length, limit, from);
      }
    }
  }

  /** In any half-open interval of one window length, at most twice the limit of creates is
      allowed for one IP, whatever came before; in any order of clock readings. */
  lemma CreatesSlidingBound(before: seq<int>, within: seq<int>, length: nat, limit: int, from: int)
    requires limit >= 1
    requires forall k :: 0 <= k < |within| ==> from <= within[k] < from + length
    ensures Allowed(WindowAfter(None, before, length, limit), within, length, limit) <= 2 * limit
  {
    WindowCountBound(None, before, length, limit);
    AllowedInInterval(WindowAfter(None, before, length, limit), within, length, limit, from);
  }

  // ---- Exactly which creates are refused ----------------------------------

  /** The call that opened the window the calls end in: the first one, and then each that comes a whole
      window after the one before. */
  function Opening(calls: seq<int>, length: nat): (o: nat)
    requires calls != []
    ensures o < |calls|
  {
    var k := |calls| - 1;
    if k == 0 then 0
    else
      var o := Opening(calls[..k], length);
      if calls[k] - calls[o] >= length then k else o
  }

  lemma {:induction false} WindowAfterSnoc(w: Option<Window>, calls: seq<int>, now: int, length: nat, limit: int)
    ensures WindowAfter(w, calls + [now], length, limit)
            == CreateStep(WindowAfter(w, calls, length, limit), now, length, limit).0
    decreases |calls|
  {
    hide CreateStep;
    if calls == [] {
      assert [now][1..] == [];
    } else {
      assert (calls + [now])[1..] == calls[1..] + [now];
      WindowAfterSnoc(CreateStep(w, calls[0], length, limit).0, calls[1..], now, length, limit);
    }
  }

  /** The state after any calls: when their window opened, and how many of its calls were admitted. */
  lemma {:induction false} WindowIs(calls: seq<int>, length: nat, limit: int)
    requires calls != []
    ensures var o := Opening(calls, length);
            var used := |calls| - o;
            WindowAfter(None, calls, length, limit)
            == Some(Window(calls[o], if used <= AtLeastOne(limit) then used else AtLeastOne(limit)))
    decreases |calls|
  {
    var k := |calls| - 1;
    assert calls == calls[..k] + [calls[k]];
    WindowAfterSnoc(None, calls[..k], calls[k], length, limit);
    if k > 0 { WindowIs(calls[..k], length, limit); } else { assert calls[..k] == []; }
  }

  /** After any calls of an IP, the next one is refused exactly when the window they end in is not over
      and has had at least `limit` calls, refused ones included. */
  lemma RefusedIff(calls: seq<int>, now: int, length: nat, limit: int)
    ensures !CreateStep(WindowAfter(None, calls, length, limit), now, length, limit).1 <==>
            calls != [] && now - calls[Opening(calls, length)] < length && |calls| - Opening(calls, length) >= limit
  {
    if calls != [] {
      WindowIs(calls, length, limit);
      hide Opening, WindowAfter;
    }
  }

  /** An honest IP is never refused: up to `limit` calls within one window length are all admitted. */
  lemma {:induction false} HonestIsAdmitted(w: Option<Window>, calls: seq<int>, length: nat, limit: int)
    requires (if w.Some? then w.value.count else 0) + |calls| <= limit
    ensures Allowed(w, calls, length, limit) == |calls|
    decreases |calls|
  {
    if calls != [] { HonestIsAdmitted(CreateStep(w, calls[0], length, limit).0, calls[1..], length, limit); }
  }

  // ---- Bucket counts ------------------------------------------------------

  datatype Change = Acquire(ip: string) | Release(ip: string)

  /** The counts after a list of acquisitions and releases. */
  function CountsAfter(changes: seq<Change>, max: int): map<string, nat> {
    if changes == [] then map[]
    else
      var m := CountsAfter(changes[..|changes| - 1], max);
      match changes[|changes| - 1]
      case Acquire(ip) => AcquireStep(m, ip, max).0
      case Release(ip) => ReleaseStep(m, ip)
  }

  /** What one IP holds after them: it goes up to `max`, down to zero, and not beyond, whatever the others do. */
  function Holding(changes: seq<Change>, ip: string, max: int): nat {
    if changes == [] then 0
    else
      var h := Holding(changes[..|changes| - 1], ip, max);
      match changes[|changes| - 1]
      case Acquire(j) => if j == ip && h < max then h + 1 else h
      case Release(j) => if j == ip && h > 0 then h - 1 else h
  }

  /** Over any run each IP is counted by itself, an acquisition succeeds exactly below the maximum, and
      only IPs that hold something are remembered. */
  lemma {:induction false} CountsAreHoldings(changes: seq<Change>, max: int, ip: string)
    ensures var m := CountsAfter(changes, max);
            && Count(m, ip) == Holding(changes, ip, max)
            && (AcquireStep(m, ip, max).1 <==> Holding(changes, ip, max) < max)
            && (ip in m <==> Holding(changes, ip, max) > 0)
  {
    if changes != [] { CountsAreHoldings(changes[..|changes| - 1], max, ip); }
  }
}
