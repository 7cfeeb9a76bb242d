/** The relay's per-connection limiter and traffic-shape signal
    (server/internal/relay/throttle.go). Times are milliseconds, token levels and averages
    are reals. */
module Throttles {
  datatype Tokens = Tokens(tokens: real, last: real)

  function MinR(a: real, b: real): real { if a <= b then a else b }

  /** What a rate per second earns between two times. */
  function Refill(a: real, b: real, rate: real): real { (b - a) / 1000.0 * rate }

  /** tokenBucket.allow up to its comparison. */
  function Credit(t: Tokens, now: real, rate: real): Tokens {
    if now > t.last then Tokens(MinR(t.tokens + Refill(t.last, now, rate), rate * 2.0), now) else t
  }

  function AllowStep(t: Tokens, now: real, cost: real, rate: real): (Tokens, bool) {
    if rate <= 0.0 then (t, true)
    else
      var c := Credit(t, now, rate);
      if c.tokens >= cost then (c.(tokens := c.tokens - cost), true) else (c, false)
  }

  /** A rate that is not positive switches the limiter off. */
  lemma OffAdmitsAll(t: Tokens, now: real, cost: real, rate: real)
    requires rate <= 0.0
    ensures AllowStep(t, now, cost, rate) == (t, true)
  {
  }

  class TokenBucket {
    var tokens: real
    var last: real

    ghost function State(): Tokens
      reads this
    {
      Tokens(tokens, last)
    }

    constructor (initial: real, now: real)
      ensures State() == Tokens(initial, now)
    {
      tokens, last := initial, now;
    }

    method Allow(now: real, cost: real, rate: real) returns (ok: bool)
      modifies this
      ensures (State(), ok) == AllowStep(old(State()), now, cost, rate)
    {
      if rate <= 0.0 { return true; }
      var elapsed := (now - last) / 1000.0;
      assert elapsed > 0.0 <==> now > last;
      var earned := elapsed * rate;
      assert earned == Refill(last, now, rate);
      hide Refill;
      if elapsed > 0.0 {
        tokens := tokens + earned;
        var cap := rate * 2.0;
        if tokens > cap { tokens := cap; }
        last := now;
      }
      if tokens >= cost {
        tokens := tokens - cost;
        return true;
      }
      return false;
    }
  }

  // ---- Sliding bound ------------------------------------------------------

  /** One frame at the limiter: when, how large, and at which rate it is judged. */
  datatype Charge = Charge(now: real, cost: real, rate: real)

  function After(t: Tokens, cs: seq<Charge>): Tokens
    decreases |cs|
  {
    if cs == [] then t else After(AllowStep(t, cs[0].now, cs[0].cost, cs[0].rate).0, cs[1..])
  }

  /** Bytes admitted over the charges. */
  function Admitted(t: Tokens, cs: seq<Charge>): real
    decreases |cs|
  {
    if cs == [] then 0.0
    else
      var r := AllowStep(t, cs[0].now, cs[0].cost, cs[0].rate);
      (if r.1 then cs[0].cost else 0.0) + Admitted(r.0, cs[1..])
  }

  /** Times in order, costs not negative, and every rate positive and at most r. */
  ghost predicate Regular(cs: seq<Charge>, from: real, r: real)
    decreases |cs|
  {
    cs != [] ==> from <= cs[0].now && cs[0].cost >= 0.0 && 0.0 < cs[0].rate <= r && Regular(cs[1..], cs[0].now, r)
  }

  lemma RefillOrder(a: real, b: real, rate: real, r: real)
    requires a <= b && 0.0 <= rate <= r
    ensures 0.0 <= Refill(a, b, rate) <= Refill(a, b, r)
  {
    var s := (b - a) / 1000.0;
    assert s >= 0.0;
    assert s * rate >= 0.0;
    assert s * (r - rate) >= 0.0;
    assert s * r == s * rate + s * (r - rate);
  }

  lemma RefillSplit(a: real, b: real, c: real, r: real)
    ensures Refill(a, c, r) == Refill(a, b, r) + Refill(b, c, r)
  {
    assert (c - a) / 1000.0 == (b - a) / 1000.0 + (c - b) / 1000.0;
  }

  lemma CreditBound(t: Tokens, now: real, rate: real, r: real)
    requires 0.0 < rate <= r && 0.0 <= t.tokens <= 2.0 * r && t.last <= now
    ensures 0.0 <= Credit(t, now, rate).tokens <= 2.0 * r
    ensures Credit(t, now, rate).tokens <= t.tokens + Refill(t.last, now, r)
    ensures Credit(t, now, rate).last == now
  {
    RefillOrder(t.last, now, rate, r);
    hide Refill;
  }

  /** From a level at some time, the admitted bytes are at most the level plus the refill. */
  lemma {:induction false} AdmittedFrom(t: Tokens, cs: seq<Charge>, r: real, until: real)
    requires 0.0 <= t.tokens <= 2.0 * r && r > 0.0 && Regular(cs, t.last, r)
    requires cs != [] ==> cs[|cs| - 1].now <= until
    requires t.last <= until
    ensures Admitted(t, cs) <= t.tokens + Refill(t.last, until, r)
    decreases |cs|
  {
    hide Refill;
    RefillOrder(t.last, until, r, r);
    if cs != [] {
      var c := cs[0];
      CreditBound(t, c.now, c.rate, r);
      LastNotBefore(cs, t.last, r);
      var n := AllowStep(t, c.now, c.cost, c.rate);
      assert n.0.last == c.now;
      AdmittedFrom(n.0, cs[1..], r, until);
      RefillSplit(t.last, c.now, until, r);
    }
  }

  lemma {:induction false} LastNotBefore(cs: seq<Charge>, from: real, r: real)
    requires cs != [] && Regular(cs, from, r)
    ensures from <= cs[0].now <= cs[|cs| - 1].now
    decreases |cs|
  {
    if |cs| > 1 { LastNotBefore(cs[1..], cs[0].now, r); }
  }

  lemma {:induction false} LevelBound(t: Tokens, cs: seq<Charge>, r: real)
    requires 0.0 <= t.tokens <= 2.0 * r && r > 0.0 && Regular(cs, t.last, r)
    ensures 0.0 <= After(t, cs).tokens <= 2.0 * r
    ensures After(t, cs).last == if cs == [] then t.last else cs[|cs| - 1].now
    decreases |cs|
  {
    if cs != [] {
      CreditBound(t, cs[0].now, cs[0].rate, r);
      hide Refill;
      LevelBound(AllowStep(t, cs[0].now, cs[0].cost, cs[0].rate).0, cs[1..], r);
    }
  }

  /** Whatever came before, the bytes admitted in any stretch of a run are at most twice the
      rate plus the rate times its length, even while the rate switches per frame. */
  lemma SlidingBound(start: real, before: seq<Charge>, within: seq<Charge>, r: real)
    requires r > 0.0 && within != []
    requires Regular(before, start, r)
    requires Regular(within, if before == [] then start else before[|before| - 1].now, r)
    ensures Admitted(After(Tokens(2.0 * r, start), before), within)
            <= 2.0 * r + Refill(within[0].now, within[|within| - 1].now, r)
  {
    hide Refill;
    var t := After(Tokens(2.0 * r, start), before);
    LevelBound(Tokens(2.0 * r, start), before, r);
    var c := within[0];
    CreditBound(t, c.now, c.rate, r);
    LastNotBefore(within, t.last, r);
    var n := AllowStep(t, c.now, c.cost, c.rate);
    var until := within[|within| - 1].now;
    hide After;
    RefillOrder(c.now, until, r, r);
    AdmittedFrom(n.0, within[1..], r, until);
  }
}
