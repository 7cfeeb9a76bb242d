/** Which paced frames the relay's per-connection limiters admit, over a link that delays every
    frame by between `delay` and `delay + jitter` milliseconds and keeps their order. */
module Admissions {
  import opened Throttles
  import opened ShapeStats
  import opened Pacers

  /** A frame: when it leaves the pacer, when the relay reads it, its size, and whether `observe`
      calls the connection bot-like at it, which halves both limits. */
  datatype Sent = Sent(left: real, arrives: real, cost: real, botLike: bool)

  /** What a limiter counts. */
  datatype Unit = Bytes | Frames

  function Charge(u: Unit, f: Sent): real { if u.Bytes? then f.cost else 1.0 }

  function RateFor(limit: real, f: Sent): real { if f.botLike then limit / 2.0 else limit }

  /** The pacer let every frame go, in order, and none is larger than the burst. */
  ghost predicate Paced(p: Bucket, fs: seq<Sent>)
    decreases |fs|
  {
    fs != [] ==>
      && p.last <= fs[0].left && 0.0 <= fs[0].cost <= p.burst
      && Ready(Topped(p, fs[0].left), fs[0].cost)
      && Paced(Spend(Topped(p, fs[0].left), fs[0].cost), fs[1..])
  }

  /** Frames arrive in order, the first not before the connection opened, each in its time. */
  ghost predicate Carried(fs: seq<Sent>, openedAt: real, delay: real, jitter: real) {
    && (forall k :: 0 <= k < |fs| ==> fs[k].left + delay <= fs[k].arrives <= fs[k].left + delay + jitter)
    && (forall k :: 0 <= k < |fs| ==> openedAt <= fs[k].arrives)
    && (forall j, k :: 0 <= j < k < |fs| ==> fs[j].arrives <= fs[k].arrives)
  }

  /** What `observe` sees. */
  function Seen(fs: seq<Sent>): seq<(real, real)> {
    seq(|fs|, k requires 0 <= k < |fs| => (fs[k].arrives, fs[k].cost))
  }

  /** Every flag is the verdict of `observe`. */
  ghost predicate Judged(fs: seq<Sent>) {
    forall k :: 0 <= k < |fs| ==> (fs[k].botLike <==> Flagged(Watch(Seen(fs[..k + 1]))))
  }

  /** The limiter admits every frame. */
  predicate AllAdmitted(t: Tokens, fs: seq<Sent>, u: Unit, limit: real)
    decreases |fs|
  {
    fs != [] ==>
      var r := AllowStep(t, fs[0].arrives, Charge(u, fs[0]), RateFor(limit, fs[0]));
      r.1 && AllAdmitted(r.0, fs[1..], u, limit)
  }

  function Earned(p: Bucket, ms: real): real { Refill(0.0, ms, p.rate) }

  // ---- Domination ---------------------------------------------------------

  /** Charges of `m` bytes each. */
  function InBytes(m: real, x: real): real { m * x }

  lemma Scale(m: real, a: real, b: real)
    requires m > 0.0
    ensures a <= b <==> InBytes(m, a) <= InBytes(m, b)
  {
    if a <= b { assert m * (b - a) >= 0.0; } else { assert m * (a - b) > 0.0; }
  }

  /** A limiter whose rate, times the bytes per charge, is no less than the pacer's earns no less. */
  lemma ScaledRefill(m: real, a: real, b: real, r: real, rate: real)
    requires a <= b && 0.0 <= rate <= InBytes(m, r)
    ensures InBytes(m, Refill(a, b, r)) >= Refill(a, b, rate) >= 0.0
  {
    var s := (b - a) / 1000.0;
    assert s * (m * r - rate) >= 0.0;
    assert s * rate >= 0.0;
    assert m * (s * r) == s * (m * r);
  }

  lemma EarnedSum(p: Bucket, a: real, b: real)
    ensures Earned(p, a) + Earned(p, b) == Earned(p, a + b)
  {
    assert (a + b) / 1000.0 == a / 1000.0 + b / 1000.0;
  }

  lemma EarnedOver(p: Bucket, a: real, b: real)
    ensures Refill(a, b, p.rate) == Earned(p, b - a)
  {
  }

  lemma EarnedOrder(p: Bucket, a: real, b: real)
    requires p.rate > 0.0 && a <= b
    ensures Earned(p, a) <= Earned(p, b)
  {
    EarnedSum(p, a, b - a);
    RefillOrder(0.0, b - a, p.rate, p.rate);
  }

  /** The limiter holds, in charges of `m` bytes, what the pacer held when the last frame left and
      what it earned while that frame was held up; or more than that can ever be. */
  ghost predicate Dominates(t: Tokens, p: Bucket, m: real, delay: real, jitter: real) {
    || InBytes(m, t.tokens) >= p.tokens + Earned(p, t.last - delay - p.last)
    || InBytes(m, t.tokens) >= p.burst + Earned(p, jitter)
  }

  /** The pacer's rate, and its burst with what a delay can save up, fit a limit of `bytes` a second. */
  predicate Fits(p: Bucket, jitter: real, bytes: real) {
    p.rate <= bytes && p.burst + Earned(p, jitter) <= 2.0 * bytes
  }

  lemma CreditDominates(p: Bucket, t: Tokens, f: Sent, r: real, m: real, delay: real, jitter: real)
    requires p.Ok() && p.last <= f.left && t.last <= f.arrives && r > 0.0 && m > 0.0 && Fits(p, jitter, InBytes(m, r))
    requires f.left + delay <= f.arrives <= f.left + delay + jitter
    requires Dominates(t, p, m, delay, jitter)
    ensures InBytes(m, Credit(t, f.arrives, r).tokens) >= Topped(p, f.left).tokens + Earned(p, f.arrives - delay - f.left)
  {
    var a, e := f.arrives, f.arrives - delay - f.left;
    assert p.rate > 0.0;
    FitsMeans(p, jitter, InBytes(m, r));
    DominatesMeans(t, p, m, delay, jitter);
    hide *;
    ScaledRefill(m, t.last, a, r, p.rate);
    EarnedOver(p, t.last, a);
    EarnedOrder(p, e, jitter);
    EarnedSum(p, t.last - delay - p.last, a - t.last);
    EarnedSum(p, e, f.left - p.last);
    assert t.last - delay - p.last + (a - t.last) == e + (f.left - p.last);
    CreditIs(t, a, r, m);
    ToppedIs(p, f.left);
    StaysAhead(InBytes(m, Credit(t, a, r).tokens), InBytes(m, t.tokens), InBytes(m, Refill(t.last, a, r)),
               2.0 * InBytes(m, r), p.tokens,
               Earned(p, t.last - delay - p.last), p.burst, Earned(p, jitter), Earned(p, a - t.last),
               Earned(p, f.left - p.last), Earned(p, e), Topped(p, f.left).tokens);
  }

  lemma FitsMeans(p: Bucket, jitter: real, bytes: real)
    requires Fits(p, jitter, bytes)
    ensures p.rate <= bytes && p.burst + Earned(p, jitter) <= 2.0 * bytes
  {
  }

  lemma DominatesMeans(t: Tokens, p: Bucket, m: real, delay: real, jitter: real)
    requires Dominates(t, p, m, delay, jitter)
    ensures InBytes(m, t.tokens) >= p.tokens + Earned(p, t.last - delay - p.last)
            || InBytes(m, t.tokens) >= p.burst + Earned(p, jitter)
  {
  }

  /** The bookkeeping of one credit. */
  lemma StaysAhead(credit: real, level: real, refill: real, cap: real, tokens: real, ahead: real, burst: real, most: real,
                   add: real, earned: real, held: real, topped: real)
    requires credit == level + refill || credit == cap
    requires level >= tokens + ahead || level >= burst + most
    requires refill >= add && refill >= 0.0 && ahead + add == held + earned && held <= most && cap >= burst + most
    requires topped <= burst && topped <= tokens + earned
    ensures credit >= topped + held
  {
  }

  lemma ToppedIs(p: Bucket, now: real)
    ensures Topped(p, now).tokens <= p.burst && Topped(p, now).tokens <= p.tokens + Earned(p, now - p.last)
  {
    EarnedOver(p, p.last, now);
    hide Earned, Refill;
  }

  /** A credit in bytes: the level and the refill, or the cap. */
  lemma CreditIs(t: Tokens, now: real, r: real, m: real)
    requires t.last <= now && r > 0.0 && m > 0.0
    ensures var c := Credit(t, now, r);
            && c.last == now
            && (InBytes(m, c.tokens) == InBytes(m, t.tokens) + InBytes(m, Refill(t.last, now, r))
                || InBytes(m, c.tokens) == 2.0 * InBytes(m, r))
  {
    var e := Refill(t.last, now, r);
    assert now == t.last ==> e == 0.0;
    hide Refill;
    assert InBytes(m, t.tokens + e) == InBytes(m, t.tokens) + InBytes(m, e);
    assert InBytes(m, r * 2.0) == 2.0 * InBytes(m, r);
  }

  /** A charge of the limiter stands for at least `m` bytes of the frame. */
  predicate Worth(m: real, u: Unit, f: Sent) { InBytes(m, Charge(u, f)) <= f.cost }

  lemma SpendKeeps(m: real, n: real, charge: real, cost: real, tokens: real, earned: real)
    requires m > 0.0 && InBytes(m, n) >= tokens + earned && earned >= 0.0 && tokens >= cost >= InBytes(m, charge)
    ensures n >= charge && InBytes(m, n - charge) >= tokens - cost + earned
  {
    Scale(m, charge, n);
    assert InBytes(m, n - charge) == InBytes(m, n) - InBytes(m, charge);
  }

  lemma AllowIs(t: Tokens, now: real, charge: real, r: real)
    requires r > 0.0 && Credit(t, now, r).tokens >= charge
    ensures var c := Credit(t, now, r); AllowStep(t, now, charge, r) == (c.(tokens := c.tokens - charge), true)
  {
  }

  /** One frame: admitted, and the limiter stays ahead. */
  lemma OneAdmitted(p: Bucket, t: Tokens, f: Sent, u: Unit, r: real, m: real, delay: real, jitter: real)
    requires p.Ok() && p.last <= f.left && t.last <= f.arrives && 0.0 < r && m > 0.0 && Fits(p, jitter, InBytes(m, r))
    requires f.left + delay <= f.arrives <= f.left + delay + jitter
    requires Dominates(t, p, m, delay, jitter)
    requires 0.0 <= f.cost <= p.burst && Ready(Topped(p, f.left), f.cost) && Worth(m, u, f)
    ensures AllowStep(t, f.arrives, Charge(u, f), r).1
    ensures Dominates(AllowStep(t, f.arrives, Charge(u, f), r).0, Spend(Topped(p, f.left), f.cost), m, delay, jitter)
  {
    var q, s, charge, e := Topped(p, f.left), Credit(t, f.arrives, r), Charge(u, f), f.arrives - delay - f.left;
    hide Earned, Credit, Topped, Charge, Dominates, AllowStep;
    CreditDominates(p, t, f, r, m, delay, jitter);
    ToppedFrame(p, f.left);
    EarnedNotNegative(p, e);
    SpendKeeps(m, s.tokens, charge, f.cost, q.tokens, Earned(p, e));
    AllowIs(t, f.arrives, charge, r);
    CreditFrame(t, f.arrives, r);
    AfterSpending(p, Spend(q, f.cost), s.(tokens := s.tokens - charge), m, delay, jitter, e);
  }

  lemma CreditFrame(t: Tokens, now: real, r: real)
    requires t.last <= now
    ensures Credit(t, now, r).last == now
  {
    hide Refill;
  }

  lemma EarnedNotNegative(p: Bucket, ms: real)
    requires p.rate > 0.0 && ms >= 0.0
    ensures Earned(p, ms) >= 0.0
  {
    RefillOrder(0.0, ms, p.rate, p.rate);
  }

  lemma AfterSpending(p: Bucket, q: Bucket, t: Tokens, m: real, delay: real, jitter: real, e: real)
    requires p.rate == q.rate && t.last - delay - q.last == e && InBytes(m, t.tokens) >= q.tokens + Earned(p, e)
    ensures Dominates(t, q, m, delay, jitter)
  {
    EarnedSame(p, q, e);
    hide Earned;
  }

  lemma EarnedSame(p: Bucket, q: Bucket, ms: real)
    requires p.rate == q.rate
    ensures Earned(p, ms) == Earned(q, ms)
  {
  }

  lemma ToppedFrame(p: Bucket, now: real)
    requires p.Ok() && p.last <= now
    ensures var q := Topped(p, now); q.Ok() && q.rate == p.rate && q.burst == p.burst && q.last == now
  {
    ToppedOk(p, now);
  }

  lemma FitsMore(p: Bucket, jitter: real, m: real, c: real, r: real)
    requires m > 0.0 && c <= r && Fits(p, jitter, InBytes(m, c))
    ensures Fits(p, jitter, InBytes(m, r))
  {
    Scale(m, c, r);
    hide Earned;
  }

  lemma SpentFrame(p: Bucket, f: Sent, jitter: real, bytes: real)
    requires p.Ok() && p.last <= f.left && f.cost >= 0.0 && Fits(p, jitter, bytes)
    ensures var q := Spend(Topped(p, f.left), f.cost);
            q.Ok() && Fits(q, jitter, bytes)
  {
    ToppedFrame(p, f.left);
    EarnedSame(p, Spend(Topped(p, f.left), f.cost), jitter);
    hide Earned, Topped;
  }

  lemma CarriedRest(fs: seq<Sent>, openedAt: real, delay: real, jitter: real)
    requires fs != [] && Carried(fs, openedAt, delay, jitter)
    ensures openedAt <= fs[0].arrives && fs[0].left + delay <= fs[0].arrives <= fs[0].left + delay + jitter
    ensures Carried(fs[1..], fs[0].arrives, delay, jitter)
  {
  }

  /** Every frame is judged at `c` at least, and worth its charge. */
  ghost predicate Judges(c: real, m: real, u: Unit, limit: real, fs: seq<Sent>) {
    forall k :: 0 <= k < |fs| ==> RateFor(limit, fs[k]) >= c && Worth(m, u, fs[k])
  }

  lemma JudgesRest(c: real, m: real, u: Unit, limit: real, fs: seq<Sent>)
    requires fs != [] && Judges(c, m, u, limit, fs)
    ensures RateFor(limit, fs[0]) >= c && Worth(m, u, fs[0]) && Judges(c, m, u, limit, fs[1..])
  {
    hide RateFor, Worth;
  }

  lemma AdmittedMore(t: Tokens, fs: seq<Sent>, u: Unit, limit: real)
    requires fs != []
    ensures var r := AllowStep(t, fs[0].arrives, Charge(u, fs[0]), RateFor(limit, fs[0]));
            AllAdmitted(t, fs, u, limit) <==> r.1 && AllAdmitted(r.0, fs[1..], u, limit)
  {
    hide AllowStep, Charge, RateFor;
  }

  lemma PacedMore(p: Bucket, fs: seq<Sent>)
    requires fs != [] && Paced(p, fs)
    ensures p.last <= fs[0].left && 0.0 <= fs[0].cost <= p.burst && Ready(Topped(p, fs[0].left), fs[0].cost)
    ensures Paced(Spend(Topped(p, fs[0].left), fs[0].cost), fs[1..])
  {
    hide Topped, Spend, Ready;
  }

  lemma {:induction false} DominationFrom(
      p: Bucket, t: Tokens, fs: seq<Sent>, u: Unit, limit: real, c: real, m: real, delay: real, jitter: real)
    requires p.Ok() && Paced(p, fs) && Carried(fs, t.last, delay, jitter)
    requires m > 0.0 && c > 0.0 && Fits(p, jitter, InBytes(m, c))
    requires Judges(c, m, u, limit, fs) && Dominates(t, p, m, delay, jitter)
    ensures AllAdmitted(t, fs, u, limit)
    decreases |fs|
  {
    if fs != [] {
      var f := fs[0];
      hide *;
      CarriedRest(fs, t.last, delay, jitter);
      JudgesRest(c, m, u, limit, fs);
      PacedMore(p, fs);
      var r := RateFor(limit, f);
      FitsMore(p, jitter, m, c, r);
      OneAdmitted(p, t, f, u, r, m, delay, jitter);
      SpentFrame(p, f, jitter, InBytes(m, c));
      AllowFrame(t, f.arrives, Charge(u, f), r);
      DominationFrom(Spend(Topped(p, f.left), f.cost), AllowStep(t, f.arrives, Charge(u, f), r).0, fs[1..], u, limit,
                     c, m, delay, jitter);
      AdmittedMore(t, fs, u, limit);
    }
  }

  lemma AllowFrame(t: Tokens, now: real, charge: real, r: real)
    requires t.last <= now && r > 0.0
    ensures AllowStep(t, now, charge, r).0.last == now
  {
    hide Refill;
  }

  /** Whichever limit each frame is judged at: if no limit falls below `c`, a charge stands for at
      least `m` bytes, and the pacer fits `m * c` bytes a second, every paced frame is admitted.
      The pacer may be older than the connection. */
  lemma PacedIsAdmitted(
      p: Bucket, fs: seq<Sent>, u: Unit, limit: real, c: real, m: real, openedAt: real, delay: real, jitter: real)
    requires p.Ok() && Paced(p, fs) && Carried(fs, openedAt, delay, jitter)
    requires m > 0.0 && 0.0 < c <= limit && Fits(p, jitter, InBytes(m, c))
    requires Judges(c, m, u, limit, fs)
    ensures AllAdmitted(Tokens(2.0 * limit, openedAt), fs, u, limit)
  {
    Scale(m, c, limit);
    assert InBytes(m, 2.0 * limit) == 2.0 * InBytes(m, limit);
    hide Earned, Paced, Carried, AllAdmitted, Judges;
    DominationFrom(p, Tokens(2.0 * limit, openedAt), fs, u, limit, c, m, delay, jitter);
  }

  // ---- Frames at even distances -------------------------------------------

  /** Frames of one size, `gap` apart at the pacer and `step` apart at the relay. */
  function Evenly(left: real, gap: real, arrives: real, step: real, cost: real, n: nat): (fs: seq<Sent>)
    ensures |fs| == n
    decreases n
  {
    if n == 0 then [] else [Sent(left, arrives, cost, false)] + Evenly(left + gap, gap, arrives + step, step, cost, n - 1)
  }

  function Times(n: nat, x: real): real { if n == 0 then 0.0 else Times(n - 1, x) + x }

  lemma {:induction false} TimesIsProduct(n: nat, x: real)
    ensures Times(n, x) == n as real * x
  {
    if n > 0 { TimesIsProduct(n - 1, x); }
  }

  lemma {:induction false} EvenlyAt(left: real, gap: real, arrives: real, step: real, cost: real, n: nat, k: nat)
    requires k < n
    ensures Evenly(left, gap, arrives, step, cost, n)[k]
            == Sent(left + Times(k, gap), arrives + Times(k, step), cost, false)
    decreases n
  {
    if k > 0 {
      EvenlyAt(left + gap, gap, arrives + step, step, cost, n - 1, k - 1);
      TimesHead(k, gap);
      TimesHead(k, step);
    }
  }

  lemma TimesHead(k: nat, x: real)
    requires k > 0
    ensures Times(k, x) == x + Times(k - 1, x)
  {
  }

  function Dry(p: Bucket, at: real): Bucket { p.(tokens := 0.0, last := at) }

  /** A pacer that holds just one frame's bytes sends it, and at the rate of its refill the others. */
  lemma {:induction false} PacedEvenly(
      p: Bucket, left: real, gap: real, arrives: real, step: real, cost: real, n: nat, rest: seq<Sent>)
    requires p.Ok() && n >= 1 && p.last <= left && gap >= 0.0 && 0.0 <= cost <= p.burst
    requires Topped(p, left).tokens == cost && Earned(p, gap) == cost
    requires Paced(Dry(p, left + Times(n - 1, gap)), rest)
    ensures Paced(p, Evenly(left, gap, arrives, step, cost, n) + rest)
    decreases n
  {
    var fs := Evenly(left, gap, arrives, step, cost, n) + rest;
    var q := Spend(Topped(p, left), cost);
    assert q == Dry(p, left);
    hide Paced, Topped, Earned;
    if n > 1 {
      DryTopped(p, left, gap);
      assert Dry(q, left + gap + Times(n - 2, gap)) == Dry(p, left + Times(n - 1, gap)) by { TimesHead(n - 1, gap); }
      EarnedSame(p, q, gap);
      PacedEvenly(q, left + gap, gap, arrives + step, step, cost, n - 1, rest);
    }
    assert fs[1..] == Evenly(left + gap, gap, arrives + step, step, cost, n - 1) + rest;
    PacedCons(p, fs);
  }

  lemma DryTopped(p: Bucket, at: real, gap: real)
    requires p.Ok() && gap >= 0.0 && Earned(p, gap) <= p.burst
    ensures Topped(Dry(p, at), at + gap).tokens == Earned(p, gap)
  {
    EarnedOver(p, at, at + gap);
    hide Earned, Refill;
  }

  lemma PacedCons(p: Bucket, fs: seq<Sent>)
    requires fs != [] && p.last <= fs[0].left && 0.0 <= fs[0].cost <= p.burst && Ready(Topped(p, fs[0].left), fs[0].cost)
    requires Paced(Spend(Topped(p, fs[0].left), fs[0].cost), fs[1..])
    ensures Paced(p, fs)
  {
    hide Topped, Spend, Ready;
  }

  // ---- The verdicts of observe --------------------------------------------

  /** The frames with the flags that `observe` gives them. */
  function Judge(fs: seq<Sent>): seq<Sent> {
    seq(|fs|, k requires 0 <= k < |fs| => fs[k].(botLike := Flagged(Watch(Seen(fs[..k + 1])))))
  }

  lemma JudgeIsJudged(fs: seq<Sent>)
    ensures Judged(Judge(fs))
  {
    hide Flagged, Watch;
    var gs := Judge(fs);
    forall k | 0 <= k < |gs| ensures gs[k].botLike <==> Flagged(Watch(Seen(gs[..k + 1]))) {
      assert Seen(gs[..k + 1]) == Seen(fs[..k + 1]);
    }
  }

  /** Flags change neither what the pacer lets go nor what the link does. */
  lemma {:induction false} SamePaced(p: Bucket, fs: seq<Sent>, gs: seq<Sent>)
    requires |fs| == |gs| && Paced(p, fs)
    requires forall k :: 0 <= k < |fs| ==> gs[k].left == fs[k].left && gs[k].cost == fs[k].cost
    ensures Paced(p, gs)
    decreases |fs|
  {
    hide Topped, Ready, Spend;
    if fs != [] { SamePaced(Spend(Topped(p, fs[0].left), fs[0].cost), fs[1..], gs[1..]); }
  }

  lemma {:induction false} PacedSizes(p: Bucket, fs: seq<Sent>)
    requires Paced(p, fs)
    ensures forall k :: 0 <= k < |fs| ==> 0.0 <= fs[k].cost <= p.burst
    decreases |fs|
  {
    if fs != [] {
      var q := Spend(Topped(p, fs[0].left), fs[0].cost);
      assert q.burst == p.burst;
      hide Topped, Ready, Spend;
      PacedSizes(q, fs[1..]);
      assert forall k :: 1 <= k < |fs| ==> fs[k] == fs[1..][k - 1];
    }
  }

  lemma {:induction false} MeanSizeBelow(frames: seq<(real, real)>, z: real)
    requires z >= 0.0 && forall k :: 0 <= k < |frames| ==> frames[k].1 <= z
    ensures Watch(frames).meanSize <= z
    decreases |frames|
  {
    hide NextVar;
    if frames != [] { MeanSizeBelow(frames[..|frames| - 1], z); }
  }

  /** The lowest limit a frame of a paced connection is judged at: no frame is called bot-like
      unless the burst is larger than the smallest size that can be. */
  function Tight(limit: real, burst: real): real { if burst > BOT_LIKE_MIN_SIZE then limit / 2.0 else limit }

  lemma JudgedAtTight(p: Bucket, fs: seq<Sent>, limit: real)
    requires limit > 0.0 && Paced(p, fs) && Judged(fs)
    ensures Judges(Tight(limit, p.burst), 1.0, Bytes, limit, fs)
  {
    PacedSizes(p, fs);
    hide Watch, Paced, LowVariation;
    forall k | 0 <= k < |fs| ensures RateFor(limit, fs[k]) >= Tight(limit, p.burst) {
      MeanSizeBelow(Seen(fs[..k + 1]), if p.burst >= 0.0 then p.burst else 0.0);
    }
  }

  /** The first `n` frames are of one size and arrive at even distances. */
  ghost predicate EvenHead(fs: seq<Sent>, n: nat, arrives: real, gap: real, cost: real) {
    n <= |fs| && forall k :: 0 <= k < n ==> fs[k].cost == cost && fs[k].arrives == arrives + Times(k, gap)
  }

  /** They are judged at the lowest limit from the 19th on. */
  lemma EvenIsTight(fs: seq<Sent>, n: nat, arrives: real, gap: real, size: real, k: nat, limit: real)
    requires Judged(fs) && EvenHead(fs, n, arrives, gap, size) && 18 <= k < n && gap > 0.0 && size > 0.0 && limit > 0.0
    ensures RateFor(limit, fs[k]) == Tight(limit, size)
  {
    var seen := Seen(fs[..k + 1]);
    hide Watch, LowVariation;
    if size > BOT_LIKE_MIN_SIZE {
      assert Steady(seen, gap, size);
      RegularStreamFlaggedFrom19(seen, gap, size);
    } else {
      MeanSizeBelow(seen, size);
    }
  }

  // ---- What a limiter that admits everything has left ---------------------

  function Level(t: Tokens, fs: seq<Sent>, limit: real): Tokens {
    if fs == [] then t
    else
      var k := |fs| - 1;
      AllowStep(Level(t, fs[..k], limit), fs[k].arrives, fs[k].cost, RateFor(limit, fs[k])).0
  }

  lemma {:induction false} AdmittedSplit(t: Tokens, xs: seq<Sent>, ys: seq<Sent>, limit: real)
    requires AllAdmitted(t, xs + ys, Bytes, limit)
    ensures AllAdmitted(t, xs, Bytes, limit) && AllAdmitted(Level(t, xs, limit), ys, Bytes, limit)
    decreases |xs|
  {
    hide AllowStep, RateFor;
    if xs == [] {
      assert xs + ys == ys;
    } else {
      assert (xs + ys)[1..] == xs[1..] + ys;
      AdmittedMore(t, xs + ys, Bytes, limit);
      AdmittedMore(t, xs, Bytes, limit);
      var r := AllowStep(t, xs[0].arrives, xs[0].cost, RateFor(limit, xs[0])).0;
      AdmittedSplit(r, xs[1..], ys, limit);
      LevelHead(t, xs, limit);
    }
  }

  lemma {:induction false} LevelHead(t: Tokens, fs: seq<Sent>, limit: real)
    requires fs != []
    ensures Level(t, fs, limit)
            == Level(AllowStep(t, fs[0].arrives, fs[0].cost, RateFor(limit, fs[0])).0, fs[1..], limit)
    decreases |fs|
  {
    hide AllowStep, RateFor;
    var k := |fs| - 1;
    if k == 0 {
      assert fs[..0] == [] && fs[1..] == [];
    } else {
      assert fs[1..][..k - 1] == fs[..k][1..];
      LevelHead(t, fs[..k], limit);
    }
  }

  lemma {:induction false} LevelLast(t: Tokens, fs: seq<Sent>, limit: real, now: real)
    requires limit > 0.0 && t.last < now && forall k :: 0 <= k < |fs| ==> fs[k].arrives < now
    ensures Level(t, fs, limit).last < now
    decreases |fs|
  {
    hide Refill;
    if fs != [] { LevelLast(t, fs[..|fs| - 1], limit, now); }
  }

  /** After an admitted frame that is later than all before it, twice its limit less its bytes is
      the most that can be left. */
  lemma LevelCap(t: Tokens, fs: seq<Sent>, limit: real)
    requires fs != [] && limit > 0.0 && AllAdmitted(t, fs, Bytes, limit)
    requires var f := fs[|fs| - 1]; t.last < f.arrives && forall k :: 0 <= k < |fs| - 1 ==> fs[k].arrives < f.arrives
    ensures var f := fs[|fs| - 1];
            var r := Level(t, fs, limit);
            r.last == f.arrives && 0.0 <= r.tokens <= 2.0 * RateFor(limit, f) - f.cost
  {
    var k := |fs| - 1;
    var f := fs[k];
    assert fs == fs[..k] + [f];
    AdmittedSplit(t, fs[..k], [f], limit);
    LevelLast(t, fs[..k], limit, f.arrives);
    AdmittedMore(Level(t, fs[..k], limit), [f], Bytes, limit);
    LastStep(Level(t, fs[..k], limit), f, limit);
    hide AllowStep, RateFor;
  }

  lemma LastStep(t: Tokens, f: Sent, limit: real)
    requires limit > 0.0 && t.last < f.arrives && AllowStep(t, f.arrives, f.cost, RateFor(limit, f)).1
    ensures var r := AllowStep(t, f.arrives, f.cost, RateFor(limit, f)).0;
            r.last == f.arrives && 0.0 <= r.tokens <= 2.0 * RateFor(limit, f) - f.cost
  {
    hide Refill;
  }

  /** Frames of one size that all arrive at the moment of the limiter's last credit. */
  lemma {:induction false} SameInstant(t: Tokens, fs: seq<Sent>, limit: real, cost: real)
    requires limit > 0.0 && t.tokens >= 0.0 && AllAdmitted(t, fs, Bytes, limit)
    requires forall k :: 0 <= k < |fs| ==> fs[k].arrives == t.last && fs[k].cost == cost
    ensures Times(|fs|, cost) <= t.tokens
    decreases |fs|
  {
    if fs != [] {
      var r := AllowStep(t, t.last, cost, RateFor(limit, fs[0])).0;
      assert r == t.(tokens := t.tokens - cost) && t.tokens >= cost;
      SameInstant(r, fs[1..], limit, cost);
    }
  }

  /** Frames of one size at even distances, all judged at one limit: each costs the limiter the
      difference between its bytes and what a gap earns. */
  lemma {:induction false} Drain(t: Tokens, fs: seq<Sent>, limit: real, c: real, gap: real, cost: real)
    requires c > 0.0 && gap > 0.0 && t.tokens >= 0.0 && AllAdmitted(t, fs, Bytes, limit)
    requires forall k :: 0 <= k < |fs| ==>
               fs[k].cost == cost && RateFor(limit, fs[k]) == c && fs[k].arrives == t.last + gap + Times(k, gap)
    ensures Times(|fs|, cost - Refill(0.0, gap, c)) <= t.tokens
    decreases |fs|
  {
    if fs != [] {
      hide Refill;
      assert fs[0].arrives == t.last + gap;
      var r := AllowStep(t, t.last + gap, cost, c).0;
      RefillOver(t.last, gap, c);
      assert r.last == t.last + gap && 0.0 <= r.tokens <= t.tokens + Refill(0.0, gap, c) - cost;
      forall k | 0 <= k < |fs| - 1 ensures fs[1..][k].arrives == r.last + gap + Times(k, gap) {
        TimesHead(k + 1, gap);
      }
      Drain(r, fs[1..], limit, c, gap, cost);
    }
  }

  lemma RefillOver(a: real, gap: real, c: real)
    ensures Refill(a, a + gap, c) == Refill(0.0, gap, c)
  {
  }

  // ---- The exact bound ----------------------------------------------------

  ghost predicate NeverRefused(p: Bucket, limit: real, openedAt: real, delay: real, jitter: real) {
    forall fs :: Paced(p, fs) && Carried(fs, openedAt, delay, jitter) && Judged(fs) ==>
      AllAdmitted(Tokens(2.0 * limit, openedAt), fs, Bytes, limit)
  }

  function FullPacer(rate: real, burst: real, at: real): Bucket { Bucket(rate, burst, burst, at) }

  function RefillTime(p: Bucket): real
    requires p.rate > 0.0
  {
    p.burst / p.rate * 1000.0
  }

  lemma RefillTimeRefills(p: Bucket)
    requires p.Ok()
    ensures RefillTime(p) > 0.0 && Earned(p, RefillTime(p)) == p.burst
  {
    assert p.burst / p.rate > 0.0;
    assert p.burst / p.rate * p.rate == p.burst;
  }

  lemma FullStaysFull(p: Bucket, at: real)
    requires p.Ok() && p.tokens == p.burst && p.last <= at
    ensures Topped(p, at).tokens == p.burst
  {
    ToppedOk(p, at);
  }

  lemma {:induction false} TimesOrder(j: nat, k: nat, x: real)
    requires j <= k && x >= 0.0
    ensures 0.0 <= Times(j, x) <= Times(k, x)
    ensures j < k && x > 0.0 ==> Times(j, x) < Times(k, x)
    decreases k
  {
    if j < k { TimesOrder(j, k - 1, x); } else if j > 0 { TimesOrder(j - 1, j - 1, x); }
  }

  /** The start of a run that empties the pacer: full bursts, each as soon as the pacer allows,
      held up by the longest delay. */
  function Bursts(p: Bucket, start: real, lag: real, n: nat): seq<Sent>
    requires p.rate > 0.0
    ensures |Bursts(p, start, lag, n)| == n
  {
    Evenly(start, RefillTime(p), start + lag, RefillTime(p), p.burst, n)
  }

  lemma BurstsPaced(p: Bucket, start: real, lag: real, n: nat, rest: seq<Sent>)
    requires p.Ok() && p.tokens == p.burst && p.last <= start && n >= 1
    requires Paced(Dry(p, start + Times(n - 1, RefillTime(p))), rest)
    ensures Paced(p, Bursts(p, start, lag, n) + rest)
  {
    RefillTimeRefills(p);
    FullStaysFull(p, start);
    hide Earned, Topped, RefillTime;
    PacedEvenly(p, start, RefillTime(p), start + lag, RefillTime(p), p.burst, n, rest);
  }

  lemma BurstsAt(p: Bucket, start: real, lag: real, n: nat, k: nat)
    requires p.rate > 0.0 && k < n
    ensures var g := RefillTime(p);
            Bursts(p, start, lag, n)[k] == Sent(start + Times(k, g), start + lag + Times(k, g), p.burst, false)
  {
    EvenlyAt(start, RefillTime(p), start + lag, RefillTime(p), p.burst, n, k);
  }

  lemma BurstsEven(p: Bucket, start: real, lag: real, n: nat, rest: seq<Sent>)
    requires p.rate > 0.0
    ensures EvenHead(Judge(Bursts(p, start, lag, n) + rest), n, start + lag, RefillTime(p), p.burst)
  {
    forall k | 0 <= k < n
      ensures Bursts(p, start, lag, n)[k]
              == Sent(start + Times(k, RefillTime(p)), start + lag + Times(k, RefillTime(p)), p.burst, false)
    {
      BurstsAt(p, start, lag, n, k);
    }
    hide Bursts, RefillTime, Watch, Flagged;
  }

  lemma BurstsCarried(p: Bucket, start: real, openedAt: real, delay: real, jitter: real, n: nat)
    requires p.Ok() && jitter >= 0.0 && openedAt <= start + delay + jitter
    ensures Carried(Bursts(p, start, delay + jitter, n), openedAt, delay, jitter)
  {
    RefillTimeRefills(p);
    var g, at := RefillTime(p), start + (delay + jitter);
    var fs := Bursts(p, start, delay + jitter, n);
    forall k | 0 <= k < n
      ensures fs[k].arrives == at + Times(k, g) && fs[k].left == start + Times(k, g) && Times(k, g) >= 0.0
    {
      BurstsAt(p, start, delay + jitter, n, k);
      TimesOrder(0, k, g);
    }
    hide Bursts, RefillTime, Times, Earned;
    forall j, k | 0 <= j < k < n ensures fs[j].arrives <= fs[k].arrives {
      TimesOrder(j, k, g);
      assert fs[j].arrives == at + Times(j, g);
    }
    forall k | 0 <= k < n
      ensures openedAt <= fs[k].arrives && fs[k].left + delay <= fs[k].arrives <= fs[k].left + delay + jitter
    {
      assert fs[k].arrives == at + Times(k, g);
    }
  }

  lemma JudgeKeeps(p: Bucket, fs: seq<Sent>, openedAt: real, delay: real, jitter: real)
    requires Paced(p, fs) && Carried(fs, openedAt, delay, jitter)
    ensures Paced(p, Judge(fs)) && Carried(Judge(fs), openedAt, delay, jitter) && Judged(Judge(fs))
  {
    JudgeIsJudged(fs);
    SamePaced(p, fs, Judge(fs));
    hide Paced, Flagged, Watch;
  }

  /** After `n` such frames, all admitted, the limiter has no more left than its last cap less a frame. */
  lemma EvenLevel(t: Tokens, fs: seq<Sent>, n: nat, arrives: real, gap: real, cost: real, limit: real)
    requires EvenHead(fs, n, arrives, gap, cost) && gap > 0.0 && limit > 0.0 && n >= 2 && t.last <= arrives
    requires AllAdmitted(t, fs, Bytes, limit)
    ensures var r := Level(t, fs[..n], limit);
            && AllAdmitted(r, fs[n..], Bytes, limit)
            && r.last == arrives + Times(n - 1, gap)
            && 0.0 <= r.tokens <= 2.0 * RateFor(limit, fs[n - 1]) - cost
  {
    forall k | 0 <= k < n - 1 ensures fs[k].arrives < fs[n - 1].arrives { TimesOrder(k, n - 1, gap); }
    TimesOrder(0, n - 1, gap);
    hide Level, AllAdmitted, RateFor;
    assert fs == fs[..n] + fs[n..];
    AdmittedSplit(t, fs[..n], fs[n..], limit);
    LevelCap(t, fs[..n], limit);
  }

  lemma Enough(x: real, y: real) returns (n: nat)
    requires x > 0.0
    ensures n >= 1 && Times(n, x) > y
  {
    var q := Quotient(x, y);
    n := if q < 0.0 then 1 else q.Floor + 1;
    TimesIsProduct(n, x);
    Above(n as real, q, x);
  }

  lemma Quotient(x: real, y: real) returns (q: real)
    requires x > 0.0
    ensures q * x == y
  {
    q := y / x;
  }

  lemma Above(n: real, q: real, x: real)
    requires x > 0.0 && n > q
    ensures n * x > q * x
  {
    assert (n - q) * x > 0.0;
  }

  lemma Slower(p: Bucket, c: real, gap: real)
    requires c < p.rate && gap > 0.0
    ensures Refill(0.0, gap, c) < Earned(p, gap)
  {
    var s := gap / 1000.0;
    assert s * (p.rate - c) > 0.0;
  }

  /** Bursts and what follows them: a possible run, with even arrivals at its start. */
  lemma BurstsRun(p: Bucket, start: real, openedAt: real, delay: real, jitter: real, n: nat, rest: seq<Sent>)
    requires p.Ok() && p.tokens == p.burst && p.last <= start && openedAt <= start + delay + jitter
    requires jitter >= 0.0 && n >= 1
    requires var held := start + Times(n - 1, RefillTime(p));
             Paced(Dry(p, held), rest) && Carried(rest, held + delay + jitter, delay, jitter)
    ensures var fs := Judge(Bursts(p, start, delay + jitter, n) + rest);
            && |fs| == n + |rest| && Paced(p, fs) && Carried(fs, openedAt, delay, jitter) && Judged(fs)
            && EvenHead(fs, n, start + delay + jitter, RefillTime(p), p.burst)
  {
    assert p.rate > 0.0;
    hide *;
    var xs := Bursts(p, start, delay + jitter, n);
    BurstsPaced(p, start, delay + jitter, n, rest);
    BurstsJoin(p, start, openedAt, delay, jitter, n, rest);
    JudgeKeeps(p, xs + rest, openedAt, delay, jitter);
    BurstsEven(p, start, delay + jitter, n, rest);
    assert start + (delay + jitter) == start + delay + jitter;
    JudgeSize(xs + rest);
  }

  lemma BurstsJoin(p: Bucket, start: real, openedAt: real, delay: real, jitter: real, n: nat, rest: seq<Sent>)
    requires p.Ok() && openedAt <= start + delay + jitter && jitter >= 0.0 && n >= 1
    requires Carried(rest, start + Times(n - 1, RefillTime(p)) + delay + jitter, delay, jitter)
    ensures Carried(Bursts(p, start, delay + jitter, n) + rest, openedAt, delay, jitter)
  {
    assert p.rate > 0.0;
    hide *;
    BurstsCarried(p, start, openedAt, delay, jitter, n);
    BurstsAt(p, start, delay + jitter, n, n - 1);
    var last := start + Times(n - 1, RefillTime(p)) + delay + jitter;
    assert last == start + (delay + jitter) + Times(n - 1, RefillTime(p));
    CarriedJoin(Bursts(p, start, delay + jitter, n), rest, openedAt, delay, jitter);
  }

  /** A pacer faster than the lowest limit empties the limiter in the end. */
  lemma TooFast(p: Bucket, limit: real, openedAt: real, delay: real, jitter: real) returns (fs: seq<Sent>)
    requires p.Ok() && p.tokens == p.burst && limit > 0.0 && jitter >= 0.0 && p.rate > Tight(limit, p.burst)
    ensures Paced(p, fs) && Carried(fs, openedAt, delay, jitter) && Judged(fs)
    ensures !AllAdmitted(Tokens(2.0 * limit, openedAt), fs, Bytes, limit)
  {
    var m := LossAdds(p, Tight(limit, p.burst), 2.0 * limit);
    var start := Max(p.last, openedAt - delay - jitter);
    hide *;
    fs := LongRun(p, limit, start, openedAt, delay, jitter, m);
  }

  lemma LossAdds(p: Bucket, c: real, total: real) returns (m: nat)
    requires p.Ok() && p.rate > c
    ensures Times(m, p.burst - Refill(0.0, RefillTime(p), c)) > total
  {
    RefillTimeRefills(p);
    Slower(p, c, RefillTime(p));
    m := Enough(p.burst - Refill(0.0, RefillTime(p), c), total);
  }

  lemma LongRun(p: Bucket, limit: real, start: real, openedAt: real, delay: real, jitter: real, m: nat)
      returns (fs: seq<Sent>)
    requires p.Ok() && p.tokens == p.burst && limit > 0.0 && jitter >= 0.0
    requires p.last <= start && openedAt <= start + delay + jitter
    requires Times(m, p.burst - Refill(0.0, RefillTime(p), Tight(limit, p.burst))) > 2.0 * limit
    ensures Paced(p, fs) && Carried(fs, openedAt, delay, jitter) && Judged(fs)
    ensures !AllAdmitted(Tokens(2.0 * limit, openedAt), fs, Bytes, limit)
  {
    RefillTimeRefills(p);
    hide *;
    fs := BurstsOnly(p, start, openedAt, delay, jitter, 18 + m);
    RefusedInTheEnd(Tokens(2.0 * limit, openedAt), fs, m, start + delay + jitter, RefillTime(p), p.burst, limit);
  }

  lemma BurstsOnly(p: Bucket, start: real, openedAt: real, delay: real, jitter: real, n: nat) returns (fs: seq<Sent>)
    requires p.Ok() && p.tokens == p.burst && p.last <= start && openedAt <= start + delay + jitter
    requires jitter >= 0.0 && n >= 1
    ensures |fs| == n && Paced(p, fs) && Carried(fs, openedAt, delay, jitter) && Judged(fs)
    ensures EvenHead(fs, n, start + delay + jitter, RefillTime(p), p.burst)
  {
    assert p.rate > 0.0;
    hide *;
    var held := start + Times(n - 1, RefillTime(p));
    NothingPaced(Dry(p, held), held + delay + jitter, delay, jitter);
    BurstsRun(p, start, openedAt, delay, jitter, n, []);
    fs := Judge(Bursts(p, start, delay + jitter, n) + []);
  }

  lemma RefusedInTheEnd(t: Tokens, fs: seq<Sent>, m: nat, arrives: real, gap: real, cost: real, limit: real)
    requires limit > 0.0 && cost > 0.0 && gap > 0.0 && t.last <= arrives && |fs| == 18 + m
    requires EvenHead(fs, 18 + m, arrives, gap, cost) && Judged(fs)
    requires Times(m, cost - Refill(0.0, gap, Tight(limit, cost))) > 2.0 * limit
    ensures !AllAdmitted(t, fs, Bytes, limit)
  {
    hide *;
    if AllAdmitted(t, fs, Bytes, limit) { DrainedBursts(t, fs, m, arrives, gap, cost, limit); }
  }

  function Max(a: real, b: real): (m: real)
    ensures m >= a && m >= b
  {
    if a >= b then a else b
  }

  lemma NothingPaced(p: Bucket, openedAt: real, delay: real, jitter: real)
    ensures Paced(p, []) && Carried([], openedAt, delay, jitter)
  {
  }

  lemma JudgeSize(fs: seq<Sent>)
    ensures |Judge(fs)| == |fs|
  {
  }

  lemma TimesSum(a: nat, b: nat, x: real)
    ensures Times(a + b, x) == Times(a, x) + Times(b, x)
  {
    TimesIsProduct(a, x);
    TimesIsProduct(b, x);
    TimesIsProduct(a + b, x);
  }

  lemma DrainedBursts(t: Tokens, fs: seq<Sent>, m: nat, arrives: real, gap: real, cost: real, limit: real)
    requires limit > 0.0 && cost > 0.0 && gap > 0.0 && t.last <= arrives && |fs| == 18 + m
    requires EvenHead(fs, 18 + m, arrives, gap, cost) && Judged(fs) && AllAdmitted(t, fs, Bytes, limit)
    ensures Times(m, cost - Refill(0.0, gap, Tight(limit, cost))) <= 2.0 * limit
  {
    hide *;
    var c := Tight(limit, cost);
    EvenLevel(t, fs, 18, arrives, gap, cost, limit) by { EvenFewer(fs, 18, 18 + m, arrives, gap, cost); }
    RateBounds(limit, fs[17], cost);
    var r := Level(t, fs[..18], limit);
    forall k | 0 <= k < m
      ensures fs[18..][k].cost == cost && RateFor(limit, fs[18..][k]) == c
      ensures fs[18..][k].arrives == r.last + gap + Times(k, gap)
    {
      EvenHeadAt(fs, 18 + m, arrives, gap, cost, 18 + k);
      EvenIsTight(fs, 18 + m, arrives, gap, cost, 18 + k, limit);
      TimesSum(17, k + 1, gap);
      TimesHead(k + 1, gap);
    }
    Drain(r, fs[18..], limit, c, gap, cost);
  }

  lemma EvenFewer(fs: seq<Sent>, j: nat, n: nat, arrives: real, gap: real, cost: real)
    requires j <= n && EvenHead(fs, n, arrives, gap, cost)
    ensures EvenHead(fs, j, arrives, gap, cost)
  {
  }

  lemma EvenHeadAt(fs: seq<Sent>, n: nat, arrives: real, gap: real, cost: real, k: nat)
    requires k < n && EvenHead(fs, n, arrives, gap, cost)
    ensures n <= |fs| && fs[k].cost == cost && fs[k].arrives == arrives + Times(k, gap)
  {
  }

  lemma RateBounds(limit: real, f: Sent, burst: real)
    requires limit > 0.0
    ensures RateFor(limit, f) <= limit && 0.0 < Tight(limit, burst) <= limit
  {
  }

  /** What a pacer saves up while a frame is held, cut into frames no larger than the burst. */
  lemma Savings(p: Bucket, jitter: real) returns (n: nat, h: real)
    requires p.Ok() && jitter >= 0.0
    ensures h >= 0.0 && Times(n, h) == jitter && Earned(p, h) <= p.burst && Times(n, Earned(p, h)) == Earned(p, jitter)
  {
    if jitter == 0.0 {
      n, h := 0, 0.0;
      assert Earned(p, 0.0) == 0.0;
    } else {
      n := Enough(p.burst, Earned(p, jitter));
      h := jitter / n as real;
      TimesIsProduct(n, h);
      EarnedTimes(p, n, h);
      TimesIsProduct(n, Earned(p, h));
      TimesIsProduct(n, p.burst);
      hide Earned;
      Scale(n as real, Earned(p, h), p.burst);
    }
  }

  lemma {:induction false} EarnedTimes(p: Bucket, n: nat, h: real)
    ensures Times(n, Earned(p, h)) == Earned(p, Times(n, h))
  {
    if n == 0 {
      assert Earned(p, 0.0) == 0.0;
    } else {
      EarnedTimes(p, n - 1, h);
      EarnedSum(p, Times(n - 1, h), h);
    }
  }

  /** The savings leave the dry pacer while the last burst is held up, and arrive with it. */
  function Saved(p: Bucket, start: real, h: real, arrives: real, n: nat): (fs: seq<Sent>)
    ensures |fs| == n
  {
    Evenly(start + h, h, arrives, 0.0, Earned(p, h), n)
  }

  lemma SavedPaced(p: Bucket, start: real, h: real, arrives: real, n: nat)
    requires p.Ok() && h >= 0.0 && Earned(p, h) <= p.burst
    ensures Paced(Dry(p, start), Saved(p, start, h, arrives, n))
  {
    if n > 0 {
      var q := Dry(p, start);
      DryTopped(p, start, h);
      EarnedNotNegative(p, h);
      EarnedSame(p, q, h);
      hide Earned, Topped;
      PacedEvenly(q, start + h, h, arrives, 0.0, Earned(p, h), n, []);
      assert Saved(p, start, h, arrives, n) + [] == Saved(p, start, h, arrives, n);
    }
  }

  lemma SavedAt(p: Bucket, start: real, h: real, arrives: real, n: nat, k: nat)
    requires k < n
    ensures Saved(p, start, h, arrives, n)[k] == Sent(start + Times(k + 1, h), arrives, Earned(p, h), false)
  {
    EvenlyAt(start + h, h, arrives, 0.0, Earned(p, h), n, k);
    TimesIsProduct(k, 0.0);
    TimesHead(k + 1, h);
  }

  lemma SavedCarried(p: Bucket, start: real, h: real, n: nat, delay: real, jitter: real)
    requires h >= 0.0 && Times(n, h) == jitter
    ensures Carried(Saved(p, start, h, start + delay + jitter, n), start + delay + jitter, delay, jitter)
  {
    var fs := Saved(p, start, h, start + delay + jitter, n);
    forall k | 0 <= k < n
      ensures fs[k].arrives == start + delay + jitter && fs[k].left + delay <= fs[k].arrives <= fs[k].left + delay + jitter
    {
      SavedAt(p, start, h, start + delay + jitter, n, k);
      TimesOrder(k + 1, n, h);
    }
  }

  lemma CarriedJoin(xs: seq<Sent>, ys: seq<Sent>, openedAt: real, delay: real, jitter: real)
    requires xs != [] && Carried(xs, openedAt, delay, jitter) && Carried(ys, xs[|xs| - 1].arrives, delay, jitter)
    ensures Carried(xs + ys, openedAt, delay, jitter)
  {
    forall k | 0 <= k < |xs| ensures xs[k].arrives <= xs[|xs| - 1].arrives { }
  }

  /** A burst that is held up after 18 others, and what the pacer saves meanwhile, come at once. */
  lemma TooMuchAtOnce(p: Bucket, limit: real, openedAt: real, delay: real, jitter: real) returns (fs: seq<Sent>)
    requires p.Ok() && p.tokens == p.burst && limit > 0.0 && jitter >= 0.0
    requires p.burst + Earned(p, jitter) > 2.0 * Tight(limit, p.burst)
    ensures Paced(p, fs) && Carried(fs, openedAt, delay, jitter) && Judged(fs)
    ensures !AllAdmitted(Tokens(2.0 * limit, openedAt), fs, Bytes, limit)
  {
    var n, h := Savings(p, jitter);
    var start := Max(p.last, openedAt - delay - jitter);
    hide *;
    fs := HeldRun(p, limit, start, openedAt, delay, jitter, n, h);
  }

  lemma HeldRun(p: Bucket, limit: real, start: real, openedAt: real, delay: real, jitter: real, n: nat, h: real)
      returns (fs: seq<Sent>)
    requires p.Ok() && p.tokens == p.burst && limit > 0.0 && jitter >= 0.0
    requires p.last <= start && openedAt <= start + delay + jitter
    requires h >= 0.0 && Times(n, h) == jitter && Earned(p, h) <= p.burst
    requires p.burst + Times(n, Earned(p, h)) > 2.0 * Tight(limit, p.burst)
    ensures Paced(p, fs) && Carried(fs, openedAt, delay, jitter) && Judged(fs)
    ensures !AllAdmitted(Tokens(2.0 * limit, openedAt), fs, Bytes, limit)
  {
    RefillTimeRefills(p);
    hide *;
    fs := BurstsThenSaved(p, start, openedAt, delay, jitter, n, h);
    RefusedAtOnce(Tokens(2.0 * limit, openedAt), fs, start + delay + jitter, RefillTime(p), p.burst, n, Earned(p, h),
                  limit);
  }

  lemma BurstsThenSaved(p: Bucket, start: real, openedAt: real, delay: real, jitter: real, n: nat, h: real)
      returns (fs: seq<Sent>)
    requires p.Ok() && p.tokens == p.burst && p.last <= start && openedAt <= start + delay + jitter && jitter >= 0.0
    requires h >= 0.0 && Times(n, h) == jitter && Earned(p, h) <= p.burst
    ensures |fs| == 19 + n && Paced(p, fs) && Carried(fs, openedAt, delay, jitter) && Judged(fs)
    ensures EvenHead(fs, 19, start + delay + jitter, RefillTime(p), p.burst)
    ensures forall k :: 0 <= k < n ==>
              fs[19..][k].arrives == start + delay + jitter + Times(18, RefillTime(p)) && fs[19..][k].cost == Earned(p, h)
  {
    assert p.rate > 0.0;
    hide *;
    var held := start + Times(18, RefillTime(p));
    var xs, ys := Bursts(p, start, delay + jitter, 19), Saved(p, held, h, held + delay + jitter, n);
    SavedPaced(p, held, h, held + delay + jitter, n);
    SavedCarried(p, held, h, n, delay, jitter);
    BurstsRun(p, start, openedAt, delay, jitter, 19, ys);
    fs := Judge(xs + ys);
    SavedArrive(p, xs, start, held, h, delay, jitter, n, Times(18, RefillTime(p)));
  }

  lemma SavedArrive(p: Bucket, xs: seq<Sent>, start: real, held: real, h: real, delay: real, jitter: real, n: nat,
                    span: real)
    requires held == start + span
    ensures var fs := Judge(xs + Saved(p, held, h, held + delay + jitter, n))[|xs|..];
            && |fs| == n
            && forall k :: 0 <= k < n ==> fs[k].arrives == start + delay + jitter + span && fs[k].cost == Earned(p, h)
  {
    hide *;
    SavedFrames(xs, p, held, h, held + delay + jitter, n);
    assert held + delay + jitter == start + delay + jitter + span;
  }

  lemma RefusedAtOnce(t: Tokens, fs: seq<Sent>, arrives: real, gap: real, burst: real, n: nat, cost: real, limit: real)
    requires limit > 0.0 && gap > 0.0 && burst > 0.0 && t.last <= arrives
    requires EvenHead(fs, 19, arrives, gap, burst) && Judged(fs) && |fs| == 19 + n
    requires forall k :: 0 <= k < n ==> fs[19..][k].arrives == arrives + Times(18, gap) && fs[19..][k].cost == cost
    requires burst + Times(n, cost) > 2.0 * Tight(limit, burst)
    ensures !AllAdmitted(t, fs, Bytes, limit)
  {
    hide *;
    if AllAdmitted(t, fs, Bytes, limit) { AtOnce(t, fs, arrives, gap, burst, n, cost, limit); }
  }

  lemma SavedFrames(xs: seq<Sent>, p: Bucket, start: real, h: real, arrives: real, n: nat)
    ensures var fs := Judge(xs + Saved(p, start, h, arrives, n))[|xs|..];
            |fs| == n && forall k :: 0 <= k < n ==> fs[k].arrives == arrives && fs[k].cost == Earned(p, h)
  {
    forall k | 0 <= k < n
      ensures Saved(p, start, h, arrives, n)[k] == Sent(start + Times(k + 1, h), arrives, Earned(p, h), false)
    {
      SavedAt(p, start, h, arrives, n, k);
    }
    hide Earned, Watch, Flagged;
  }

  lemma AtOnce(t: Tokens, fs: seq<Sent>, arrives: real, gap: real, burst: real, n: nat, cost: real, limit: real)
    requires limit > 0.0 && gap > 0.0 && burst > 0.0 && t.last <= arrives
    requires EvenHead(fs, 19, arrives, gap, burst) && Judged(fs) && AllAdmitted(t, fs, Bytes, limit)
    requires |fs| == 19 + n
    requires forall k :: 0 <= k < n ==> fs[19..][k].arrives == arrives + Times(18, gap) && fs[19..][k].cost == cost
    ensures burst + Times(n, cost) <= 2.0 * Tight(limit, burst)
  {
    hide *;
    EvenLevel(t, fs, 19, arrives, gap, burst, limit);
    EvenIsTight(fs, 19, arrives, gap, burst, 18, limit);
    SameInstant(Level(t, fs[..19], limit), fs[19..], limit, cost);
  }

  /** Exactly when the relay never refuses a paced frame for its bytes, on any link that adds up to
      `jitter` to a constant delay: when the pacer is no faster than the lowest limit, and its burst
      with what it saves up in that time fits that limit's cap. */
  lemma NeverRefusedIff(rate: real, burst: real, at: real, limit: real, openedAt: real, delay: real, jitter: real)
    requires rate > 0.0 && burst > 0.0 && limit > 0.0 && jitter >= 0.0
    ensures var c := Tight(limit, burst);
            NeverRefused(FullPacer(rate, burst, at), limit, openedAt, delay, jitter)
            <==> rate <= c && burst + jitter / 1000.0 * rate <= 2.0 * c
  {
    var p, c := FullPacer(rate, burst, at), Tight(limit, burst);
    assert Earned(p, jitter) == jitter / 1000.0 * rate;
    assert Fits(p, jitter, 1.0 * c) <==> rate <= c && burst + Earned(p, jitter) <= 2.0 * c;
    assert 0.0 < c <= limit;
    hide Earned, Paced, Carried, Judged, AllAdmitted, Tight, Judges, Fits;
    if Fits(p, jitter, 1.0 * c) {
      forall fs | Paced(p, fs) && Carried(fs, openedAt, delay, jitter) && Judged(fs)
        ensures AllAdmitted(Tokens(2.0 * limit, openedAt), fs, Bytes, limit)
      {
        JudgedAtTight(p, fs, limit);
        PacedIsAdmitted(p, fs, Bytes, limit, c, 1.0, openedAt, delay, jitter);
      }
    } else {
      var fs;
      if rate > c {
        fs := TooFast(p, limit, openedAt, delay, jitter);
      } else {
        fs := TooMuchAtOnce(p, limit, openedAt, delay, jitter);
      }
      assert !AllAdmitted(Tokens(2.0 * limit, openedAt), fs, Bytes, limit);
    }
  }

  /** The relay's default MaxFramesPerSecConn (server/internal/config/config.go). */
  const RELAY_FRAMES_PER_SEC: real := 50.0

  /** The shipped pacer exactly fills the shipped limit: it is never refused on a link of constant
      delay, and on no other. */
  lemma ShippedNeedsConstantDelay(at: real, openedAt: real, delay: real, jitter: real)
    requires jitter >= 0.0
    ensures NeverRefused(FullPacer(PACER_BYTES_PER_SEC, PACER_BURST_BYTES, at), RELAY_BYTES_PER_SEC, openedAt, delay,
                         jitter)
            <==> jitter == 0.0
  {
    NeverRefusedIff(PACER_BYTES_PER_SEC, PACER_BURST_BYTES, at, RELAY_BYTES_PER_SEC, openedAt, delay, jitter);
    hide NeverRefused;
  }

  // ---- The limiter that counts frames -------------------------------------

  /** Paced frames of at least `m` bytes are never refused for their number, whichever limit each is
      judged at, if the pacer fits half the limit at `m` bytes a frame. */
  lemma LargeFramesAdmitted(
      p: Bucket, fs: seq<Sent>, limit: real, m: real, openedAt: real, delay: real, jitter: real)
    requires p.Ok() && Paced(p, fs) && Carried(fs, openedAt, delay, jitter) && m > 0.0 && limit > 0.0
    requires p.rate <= m * limit / 2.0 && p.burst + Earned(p, jitter) <= m * limit
    requires forall k :: 0 <= k < |fs| ==> fs[k].cost >= m
    ensures AllAdmitted(Tokens(2.0 * limit, openedAt), fs, Frames, limit)
  {
    assert m * (limit / 2.0) == m * limit / 2.0;
    hide Earned, Paced, Carried, AllAdmitted;
    assert Fits(p, jitter, m * (limit / 2.0));
    assert Judges(limit / 2.0, m, Frames, limit, fs);
    PacedIsAdmitted(p, fs, Frames, limit, limit / 2.0, m, openedAt, delay, jitter);
  }

  /** Small frames that leave a full pacer together: all are admitted exactly when there are no more
      of them than twice the limit. */
  lemma TogetherIff(p: Bucket, limit: real, openedAt: real, delay: real, size: real, n: nat)
    requires p.Ok() && p.tokens == p.burst && limit > 0.0 && 0.0 < size <= BOT_LIKE_MIN_SIZE
    requires openedAt <= p.last + delay && Times(n, size) <= p.burst
    ensures var fs := Evenly(p.last, 0.0, p.last + delay, 0.0, size, n);
            && Paced(p, fs) && Carried(fs, openedAt, delay, 0.0) && Judged(fs)
            && (AllAdmitted(Tokens(2.0 * limit, openedAt), fs, Frames, limit) <==> n as real <= 2.0 * limit)
  {
    var fs := Evenly(p.last, 0.0, p.last + delay, 0.0, size, n);
    forall k | 0 <= k < n ensures fs[k] == Sent(p.last, p.last + delay, size, false) {
      EvenlyAt(p.last, 0.0, p.last + delay, 0.0, size, n, k);
      TimesIsProduct(k, 0.0);
    }
    TogetherPaced(p, p.last, p.last + delay, size, n);
    forall k | 0 <= k < n ensures fs[k].botLike <==> Flagged(Watch(Seen(fs[..k + 1]))) {
      MeanSizeBelow(Seen(fs[..k + 1]), size);
    }
    hide Paced, Flagged, Watch, Seen;
    FramesTogether(Tokens(2.0 * limit, openedAt), fs, limit, p.last + delay);
  }

  lemma {:induction false} TogetherPaced(p: Bucket, at: real, arrives: real, size: real, n: nat)
    requires p.Ok() && p.last == at && size > 0.0 && Times(n, size) <= p.tokens
    ensures Paced(p, Evenly(at, 0.0, arrives, 0.0, size, n))
    decreases n
  {
    if n > 0 {
      TimesOrder(0, n - 1, size);
      var q := Spend(Topped(p, at), size);
      assert Topped(p, at) == p by { EarnedOver(p, at, at); }
      TogetherPaced(q, at, arrives, size, n - 1);
      assert Evenly(at, 0.0, arrives, 0.0, size, n)[1..] == Evenly(at, 0.0, arrives, 0.0, size, n - 1);
    }
  }

  lemma {:induction false} FramesTogether(t: Tokens, fs: seq<Sent>, limit: real, at: real)
    requires limit > 0.0 && t.last <= at && (t.last == at || t.tokens == 2.0 * limit) && 0.0 <= t.tokens
    requires forall k :: 0 <= k < |fs| ==> fs[k].arrives == at && !fs[k].botLike
    ensures AllAdmitted(t, fs, Frames, limit) <==> |fs| as real <= t.tokens
    decreases |fs|
  {
    if fs != [] {
      var r := AllowStep(t, at, 1.0, limit);
      RefillOrder(t.last, at, limit, limit);
      hide Refill;
      assert r.1 <==> t.tokens >= 1.0;
      if r.1 {
        assert r.0 == Tokens(t.tokens - 1.0, at);
        FramesTogether(r.0, fs[1..], limit, at);
      }
    }
  }
}
