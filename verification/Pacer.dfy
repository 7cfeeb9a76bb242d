/** The client's send pacer (web/src/lib/relay/pacer.ts). */
module Pacers {
  import opened Throttles

  /** PACER_BYTES_PER_SEC and PACER_BURST_BYTES, and the relay's default
      MaxBytesPerSecConn (server/internal/config/config.go). */
  const PACER_BYTES_PER_SEC: real := 204800.0
  const PACER_BURST_BYTES: real := 524288.0
  const RELAY_BYTES_PER_SEC: real := 524288.0

  datatype Bucket = Bucket(rate: real, burst: real, tokens: real, last: real) {
    ghost predicate Ok() { rate > 0.0 && burst > 0.0 && tokens <= burst }
  }

  /** The refill at the head of take's loop. */
  function Topped(p: Bucket, now: real): Bucket {
    p.(tokens := MinR(p.burst, p.tokens + Refill(p.last, now, p.rate)), last := now)
  }

  predicate Ready(p: Bucket, cost: real) { p.tokens >= cost || p.tokens >= p.burst }

  function Ceil(x: real): int { -((-x).Floor) }

  /** The milliseconds take sleeps before it looks again. */
  function SleepMs(p: Bucket, cost: real): int
    requires p.rate > 0.0
  {
    Ceil((MinR(cost, p.burst) - p.tokens) / p.rate * 1000.0)
  }

  function Spend(p: Bucket, cost: real): Bucket { p.(tokens := p.tokens - cost) }

  lemma CeilCovers(x: real)
    ensures Ceil(x) as real >= x
  {
  }

  lemma RefillOver(a: real, b: real, rate: real, need: real)
    requires rate > 0.0 && b - a >= need / rate * 1000.0
    ensures Refill(a, b, rate) >= need
  {
    var s := (b - a) / 1000.0;
    assert s >= need / rate;
    assert (s - need / rate) * rate >= 0.0;
    assert need / rate * rate == need;
  }

  /** A sleep of at least the computed length is enough: the next look is the last. */
  lemma OneSleepIsEnough(p: Bucket, cost: real, wake: real)
    requires p.Ok() && !Ready(p, cost) && wake >= p.last + SleepMs(p, cost) as real
    ensures Ready(Topped(p, wake), cost)
  {
    var need := MinR(cost, p.burst) - p.tokens;
    CeilCovers(need / p.rate * 1000.0);
    RefillOver(p.last, wake, p.rate, need);
    hide Refill, SleepMs, Ceil;
  }

  lemma CeilIsLeast(x: real, n: int)
    ensures n as real >= x <==> n >= Ceil(x)
  {
  }

  lemma RefillIff(a: real, ms: real, rate: real, need: real)
    requires rate > 0.0
    ensures Refill(a, a + ms, rate) >= need <==> ms >= need / rate * 1000.0
  {
    var s := ms / 1000.0;
    assert need / rate * rate == need;
    assert (s - need / rate) * rate == s * rate - need;
    assert s >= need / rate ==> (s - need / rate) * rate >= 0.0;
    assert s < need / rate ==> (need / rate - s) * rate > 0.0;
  }

  /** The computed sleep is the shortest in whole milliseconds after which the frame can go. */
  lemma SleepIsShortest(p: Bucket, cost: real, ms: int)
    requires p.Ok() && !Ready(p, cost) && ms >= 0
    ensures Ready(Topped(p, p.last + ms as real), cost) <==> ms >= SleepMs(p, cost)
  {
    var need := MinR(cost, p.burst) - p.tokens;
    RefillIff(p.last, ms as real, p.rate, need);
    CeilIsLeast(need / p.rate * 1000.0, ms);
    hide Refill, Ceil;
  }

  lemma ToppedOk(p: Bucket, now: real)
    requires p.Ok() && p.last <= now
    ensures Topped(p, now).Ok() && Topped(p, now).tokens >= p.tokens
  {
    RefillOrder(p.last, now, p.rate, p.rate);
    hide Refill;
  }

  /** Refilling in two steps is refilling once. */
  lemma ToppedTwice(p: Bucket, mid: real, now: real)
    requires p.Ok() && p.last <= mid <= now
    ensures Topped(Topped(p, mid), now) == Topped(p, now)
  {
    RefillSplit(p.last, mid, now, p.rate);
    RefillOrder(mid, now, p.rate, p.rate);
    hide Refill;
  }

  class Pacer {
    const rate: real
    const burst: real
    var tokens: real
    var last: real

    ghost function State(): Bucket
      reads this
    {
      Bucket(rate, burst, tokens, last)
    }

    constructor (rate: real, burst: real, now: real)
      ensures State() == Bucket(rate, burst, burst, now)
    {
      this.rate, this.burst, tokens, last := rate, burst, burst, now;
    }

    /** take: `start` is the clock when the call's turn comes, and its k-th sleep lasts
        `late(k)` milliseconds longer than asked for. */
    method Take(cost: real, start: real, late: nat -> real) returns (left: real, sleeps: nat)
      requires State().Ok() && last <= start && forall k :: late(k) >= 0.0
      modifies this
      ensures sleeps <= 1 && start <= left
      ensures State() == Spend(Topped(old(State()), left), cost)
      ensures Ready(Topped(old(State()), left), cost)
      ensures sleeps == 0 <==> Ready(Topped(old(State()), start), cost)
      ensures sleeps == 0 ==> left == start
      ensures cost >= 0.0 ==> State().Ok()
    {
      hide Refill, SleepMs;
      ghost var was := State();
      var t := start;
      sleeps := 0;
      while true
        invariant State().Ok() && was.last <= last <= t && start <= t
        invariant Topped(State(), t) == Topped(was, t)
        invariant sleeps == 0 ==> t == start && State() == was
        invariant sleeps >= 1 ==> sleeps == 1 && !Ready(Topped(was, start), cost) && Ready(Topped(was, t), cost)
        decreases 1 - sleeps
      {
        ToppedOk(State(), t);
        tokens := MinR(burst, tokens + Refill(last, t, rate));
        last := t;
        assert State() == Topped(was, t);
        if tokens >= cost || tokens >= burst {
          tokens := tokens - cost;
          return t, sleeps;
        }
        var wake := t + SleepMs(Bucket(rate, burst, tokens, last), cost) as real + late(sleeps);
        SleepIsForward(State(), cost);
        OneSleepIsEnough(State(), cost, wake);
        ToppedTwice(was, t, wake);
        t := wake;
        sleeps := sleeps + 1;
      }
    }
  }

  lemma SleepIsForward(p: Bucket, cost: real)
    requires p.Ok() && !Ready(p, cost)
    ensures SleepMs(p, cost) >= 0
  {
    var need := MinR(cost, p.burst) - p.tokens;
    assert need >= 0.0;
    assert need / p.rate * 1000.0 >= 0.0;
    CeilCovers(need / p.rate * 1000.0);
  }
}
