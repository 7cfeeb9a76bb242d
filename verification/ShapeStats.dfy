/** The traffic-shape signal (server/internal/relay/throttle.go). `sqrt(v) / m < b` is taken
    as `v < (b * m)^2`, which says the same for v >= 0, m > 0 and b > 0. */
module ShapeStats {
  const ALPHA := 0.2
  const KEEP := 0.8
  const MIN_SAMPLES := 8
  const BOT_LIKE_MIN_SIZE: real := 32768.0

  datatype Shape = Shape(
    haveLast: bool,
    lastAt: real,
    meanGap: real,
    varGap: real,
    meanSize: real,
    varSize: real,
    samples: nat)

  function NewShape(): Shape { Shape(false, 0.0, 0.0, 0.0, 0.0, 0.0, 0) }

  function NextMean(m: real, x: real): real { m + ALPHA * (x - m) }

  function NextVar(m: real, v: real, x: real): real { KEEP * (v + ALPHA * (x - m) * (x - m)) }

  function Learn(s: Shape, now: real, size: real): Shape {
    if !s.haveLast then s.(haveLast := true, lastAt := now, meanSize := size)
    else
      var gap := now - s.lastAt;
      Shape(true, now, NextMean(s.meanGap, gap), NextVar(s.meanGap, s.varGap, gap),
            NextMean(s.meanSize, size), NextVar(s.meanSize, s.varSize, size), s.samples + 1)
  }

  /** The coefficient of variation is below the bound; Go leaves it at 0 for a mean that is
      not positive. */
  predicate LowVariation(v: real, m: real, bound: real) { m > 0.0 ==> v < bound * m * (bound * m) }

  predicate Flagged(s: Shape) {
    s.samples >= MIN_SAMPLES && LowVariation(s.varGap, s.meanGap, 0.15) && LowVariation(s.varSize, s.meanSize, 0.10) &&
    s.meanSize > BOT_LIKE_MIN_SIZE
  }

  /** observe as an object updated frame by frame. */
  class ShapeTracker {
    var haveLast: bool
    var lastAt: real
    var emaIntervalMs: real
    var emaIntervalVarMs: real
    var emaSize: real
    var emaSizeVar: real
    var samples: nat

    ghost function State(): Shape
      reads this
    {
      Shape(haveLast, lastAt, emaIntervalMs, emaIntervalVarMs, emaSize, emaSizeVar, samples)
    }

    constructor ()
      ensures State() == NewShape()
    {
      haveLast, lastAt, emaIntervalMs, emaIntervalVarMs, emaSize, emaSizeVar, samples := false, 0.0, 0.0, 0.0, 0.0, 0.0, 0;
    }

    method Observe(now: real, size: nat) returns (botLike: bool)
      modifies this
      ensures State() == Learn(old(State()), now, size as real)
      ensures botLike <==> old(haveLast) && Flagged(State())
    {
      var sz := size as real;
      if !haveLast {
        haveLast, lastAt, emaSize := true, now, sz;
        return false;
      }
      var intervalMs := now - lastAt;
      lastAt := now;
      var di := intervalMs - emaIntervalMs;
      emaIntervalVarMs := KEEP * (emaIntervalVarMs + ALPHA * di * di);
      emaIntervalMs := emaIntervalMs + ALPHA * di;
      var ds := sz - emaSize;
      emaSizeVar := KEEP * (emaSizeVar + ALPHA * ds * ds);
      emaSize := emaSize + ALPHA * ds;
      samples := samples + 1;
      if samples < MIN_SAMPLES { return false; }
      var steady := emaIntervalMs <= 0.0 || emaIntervalVarMs < 0.15 * emaIntervalMs * (0.15 * emaIntervalMs);
      var uniform := emaSize <= 0.0 || emaSizeVar < 0.10 * emaSize * (0.10 * emaSize);
      botLike := steady && uniform && emaSize > BOT_LIKE_MIN_SIZE;
    }
  }

  // ---- Exact moments ------------------------------------------------------

  function Pow(n: nat): real { if n == 0 then 1.0 else KEEP * Pow(n - 1) }

  /** The exponentially weighted sum, written out: the newest sample weighs ALPHA, each older
      one KEEP times less, and the starting value what is left. */
  function Weighted(start: real, xs: seq<real>): real { Pow(|xs|) * start + Tail(xs) }

  function Tail(xs: seq<real>): real
    decreases |xs|
  {
    if xs == [] then 0.0 else ALPHA * Pow(|xs| - 1) * xs[0] + Tail(xs[1..])
  }

  function Square(x: real): real { x * x }

  function Squares(xs: seq<real>): seq<real> { seq(|xs|, i requires 0 <= i < |xs| => Square(xs[i])) }

  /** The running mean and variance after the samples. */
  function Mean(m: real, xs: seq<real>): real {
    if xs == [] then m else NextMean(Mean(m, xs[..|xs| - 1]), xs[|xs| - 1])
  }

  function Var(m: real, xs: seq<real>): real {
    if xs == [] then 0.0
    else NextVar(Mean(m, xs[..|xs| - 1]), Var(m, xs[..|xs| - 1]), xs[|xs| - 1])
  }

  lemma {:induction false} TailSnoc(xs: seq<real>, x: real)
    ensures Tail(xs + [x]) == KEEP * Tail(xs) + ALPHA * x
    decreases |xs|
  {
    if xs == [] {
      assert [x][1..] == [];
    } else {
      assert (xs + [x])[1..] == xs[1..] + [x];
      TailSnoc(xs[1..], x);
      assert Pow(|xs|) == KEEP * Pow(|xs| - 1);
    }
  }

  lemma WeightedSnoc(start: real, xs: seq<real>, x: real)
    ensures Weighted(start, xs + [x]) == KEEP * Weighted(start, xs) + ALPHA * x
  {
    TailSnoc(xs, x);
    assert Pow(|xs| + 1) == KEEP * Pow(|xs|);
  }

  /** The running mean is the weighted mean. */
  lemma {:induction false} MeanIsWeighted(m: real, xs: seq<real>)
    ensures Mean(m, xs) == Weighted(m, xs)
    decreases |xs|
  {
    if xs != [] {
      var k := |xs| - 1;
      MeanIsWeighted(m, xs[..k]);
      WeightedSnoc(m, xs[..k], xs[k]);
      assert xs[..k] + [xs[k]] == xs;
    }
  }

  lemma MomentStep(w1: real, w2: real, v: real, x: real)
    requires v == w2 - Square(w1)
    ensures NextVar(w1, v, x) == (KEEP * w2 + ALPHA * Square(x)) - Square(NextMean(w1, x))
  {
    var d := x - w1;
    assert x * x == w1 * w1 + 2.0 * w1 * d + d * d;
    assert NextMean(w1, x) * NextMean(w1, x) == w1 * w1 + 2.0 * ALPHA * w1 * d + ALPHA * ALPHA * (d * d);
  }

  lemma SquaresSnoc(xs: seq<real>)
    requires xs != []
    ensures Squares(xs) == Squares(xs[..|xs| - 1]) + [Square(xs[|xs| - 1])]
  {
    hide Square;
  }

  /** The running variance is exactly the weighted second moment minus the squared weighted
      mean, and therefore never negative. */
  lemma {:induction false} VarIsMoment(m: real, xs: seq<real>)
    ensures Var(m, xs) == Weighted(Square(m), Squares(xs)) - Square(Mean(m, xs))
    ensures Var(m, xs) >= 0.0
    decreases |xs|
  {
    if xs != [] {
      var k := |xs| - 1;
      VarIsMoment(m, xs[..k]);
      SquaresSnoc(xs);
      WeightedSnoc(Square(m), Squares(xs[..k]), Square(xs[k]));
      MomentStep(Mean(m, xs[..k]), Weighted(Square(m), Squares(xs[..k])), Var(m, xs[..k]), xs[k]);
      NextVarNonNegative(Mean(m, xs[..k]), Var(m, xs[..k]), xs[k]);
      hide Weighted, NextVar, NextMean, Square, Squares;
    }
  }

  lemma NextVarNonNegative(m: real, v: real, x: real)
    requires v >= 0.0
    ensures NextVar(m, v, x) >= 0.0
  {
    var d := x - m;
    assert d * d >= 0.0;
    assert ALPHA * (x - m) * (x - m) == ALPHA * (d * d);
  }

  // ---- Whole runs ---------------------------------------------------------

  function Watch(frames: seq<(real, real)>): Shape {
    if frames == [] then NewShape()
    else Learn(Watch(frames[..|frames| - 1]), frames[|frames| - 1].0, frames[|frames| - 1].1)
  }

  function Gaps(frames: seq<(real, real)>): seq<real> {
    if |frames| < 2 then [] else seq(|frames| - 1, i requires 0 <= i < |frames| - 1 => frames[i + 1].0 - frames[i].0)
  }

  function Sizes(frames: seq<(real, real)>): seq<real> {
    if |frames| < 2 then [] else seq(|frames| - 1, i requires 0 <= i < |frames| - 1 => frames[i + 1].1)
  }

  lemma GapsSnoc(frames: seq<(real, real)>)
    requires |frames| >= 2
    ensures var k, f := |frames| - 1, frames[..|frames| - 1];
            && |Gaps(frames)| == |Sizes(frames)| == k
            && Gaps(frames)[..k - 1] == Gaps(f) && Gaps(frames)[k - 1] == frames[k].0 - frames[k - 1].0
            && Sizes(frames)[..k - 1] == Sizes(f) && Sizes(frames)[k - 1] == frames[k].1
  {
  }

  /** The tracker's fields are the moments of all gaps (from 0) and sizes (from the first). */
  lemma {:induction false} FieldsAreMoments(frames: seq<(real, real)>)
    requires frames != []
    ensures var s := Watch(frames);
            && s.haveLast && s.samples == |frames| - 1 && s.lastAt == frames[|frames| - 1].0
            && s.meanGap == Mean(0.0, Gaps(frames)) && s.varGap == Var(0.0, Gaps(frames))
            && s.meanSize == Mean(frames[0].1, Sizes(frames)) && s.varSize == Var(frames[0].1, Sizes(frames))
    decreases |frames|
  {
    var k := |frames| - 1;
    var f := frames[..k];
    if k == 0 {
      assert f == [];
      hide Mean, Var, NextMean, NextVar;
      EmptyMoments(0.0);
      EmptyMoments(frames[0].1);
    } else {
      hide Mean, Var, NextMean, NextVar, Gaps, Sizes;
      FieldsAreMoments(f);
      GapsSnoc(frames);
      MeanVarSnoc(0.0, Gaps(frames));
      MeanVarSnoc(frames[0].1, Sizes(frames));
    }
  }

  lemma EmptyMoments(m: real)
    ensures Mean(m, []) == m && Var(m, []) == 0.0
  {
  }

  lemma MeanVarSnoc(m: real, xs: seq<real>)
    requires xs != []
    ensures Mean(m, xs) == NextMean(Mean(m, xs[..|xs| - 1]), xs[|xs| - 1])
    ensures Var(m, xs) == NextVar(Mean(m, xs[..|xs| - 1]), Var(m, xs[..|xs| - 1]), xs[|xs| - 1])
  {
  }

  /** Mean and variance of a constant sample c, a distance d from the start, with weight q
      left on the start. */
  function ConstMean(c: real, q: real, d: real): real { c + q * d }

  function ConstVar(q: real, d: real): real { q * (1.0 - q) * (d * d) }

  /** A constant sample: the mean approaches it, the variance shrinks with it. */
  lemma {:induction false} ConstantMoments(m: real, c: real, xs: seq<real>)
    requires forall k :: 0 <= k < |xs| ==> xs[k] == c
    ensures Mean(m, xs) == ConstMean(c, Pow(|xs|), m - c)
    ensures Var(m, xs) == ConstVar(Pow(|xs|), m - c)
    decreases |xs|
  {
    hide ConstMean, ConstVar, NextMean, NextVar;
    if xs == [] {
      ConstantStart(m, c);
    } else {
      var k := |xs| - 1;
      ConstantMoments(m, c, xs[..k]);
      ConstantStep(Pow(k), m - c, c);
    }
  }

  lemma ConstantStart(m: real, c: real)
    ensures ConstMean(c, 1.0, m - c) == m && ConstVar(1.0, m - c) == 0.0
  {
  }

  lemma ConstantStep(q: real, d: real, c: real)
    ensures NextMean(ConstMean(c, q, d), c) == ConstMean(c, KEEP * q, d)
    ensures NextVar(ConstMean(c, q, d), ConstVar(q, d), c) == ConstVar(KEEP * q, d)
  {
    assert (c - (c + q * d)) * (c - (c + q * d)) == q * q * (d * d);
  }

  lemma {:induction false} PowRange(n: nat)
    ensures 0.0 < Pow(n) <= 1.0
    ensures n >= 1 ==> Pow(n) < 1.0
  {
    if n > 0 { PowRange(n - 1); }
  }

  lemma {:induction false} PowFalls(a: nat, b: nat)
    requires a <= b
    ensures Pow(b) <= Pow(a)
    decreases b - a
  {
    if a < b { PowFalls(a, b - 1); PowRange(b - 1); }
  }

  /** 0.8^18 is the first power below the threshold 0.0225 / 1.0225. */
  lemma Threshold(n: nat)
    ensures 1.0225 * Pow(n) < 0.0225 <==> n >= 18
  {
    assert Pow(1) == 0.8 && Pow(2) == 0.64 && Pow(3) == 0.512 && Pow(4) == 0.4096;
    assert Pow(5) == 0.32768 && Pow(6) == 0.262144 && Pow(7) == 0.2097152 && Pow(8) == 0.16777216;
    assert Pow(9) < 0.1342178 && Pow(9) > 0.1342177;
    assert Pow(11) > 0.0858993 && Pow(11) < 0.0858994;
    assert Pow(13) > 0.0549755 && Pow(13) < 0.0549757;
    assert Pow(15) > 0.0351843 && Pow(15) < 0.0351845;
    assert Pow(17) > 0.0225179 && Pow(17) < 0.0225181;
    assert Pow(18) < 0.0180145;
    if n >= 18 { PowFalls(18, n); } else { PowFalls(n, 17); }
  }

  /** Frames of one size at one gap. */
  ghost predicate Steady(frames: seq<(real, real)>, gap: real, size: real) {
    && (forall k :: 0 <= k < |frames| ==> frames[k].1 == size)
    && (forall k :: 0 <= k < |frames| - 1 ==> frames[k + 1].0 - frames[k].0 == gap)
  }

  lemma Cancel(w: real, a: real, b: real)
    requires w > 0.0
    ensures w * a < w * b <==> a < b
  {
    if a < b { assert w * (b - a) > 0.0; } else { assert w * (a - b) >= 0.0; }
  }

  lemma ConstantIdentities(q: real, c: real, w: real)
    requires w == (1.0 - q) * (c * c)
    ensures ConstVar(q, 0.0 - c) == w * q
    ensures 0.15 * ConstMean(c, q, 0.0 - c) * (0.15 * ConstMean(c, q, 0.0 - c)) == w * (0.0225 * (1.0 - q))
  {
    var u := c * (1.0 - q);
    assert c + q * (0.0 - c) == u;
    assert u * u == (1.0 - q) * (c * c) * (1.0 - q);
    assert 0.15 * u * (0.15 * u) == 0.0225 * (u * u);
  }

  lemma Product(a: real, b: real) returns (p: real)
    requires a > 0.0 && b > 0.0
    ensures p == a * b && p > 0.0
  {
    p := a * b;
  }

  lemma VariationTest(v: real, m: real, w: real, q: real)
    requires m > 0.0 && w > 0.0 && v == w * q && 0.15 * m * (0.15 * m) == w * (0.0225 * (1.0 - q))
    ensures LowVariation(v, m, 0.15) <==> 1.0225 * q < 0.0225
  {
    Cancel(w, q, 0.0225 * (1.0 - q));
    var a, b := w * q, w * (0.0225 * (1.0 - q));
    var bound := 0.15;
    assert bound * m * (bound * m) == b;
  }

  lemma LowVariationOfConstant(q: real, c: real)
    requires c > 0.0 && 0.0 < q < 1.0
    ensures LowVariation(ConstVar(q, 0.0 - c), ConstMean(c, q, 0.0 - c), 0.15) <==> 1.0225 * q < 0.0225
  {
    var m := Product(c, 1.0 - q);
    assert ConstMean(c, q, 0.0 - c) == m;
    var cc := Product(c, c);
    var w := Product(1.0 - q, cc);
    ConstantIdentities(q, c, w);
    hide ConstVar, ConstMean, LowVariation;
    VariationTest(ConstVar(q, 0.0 - c), ConstMean(c, q, 0.0 - c), w, q);
  }

  lemma LowVariationOfSame(q: real, z: real)
    requires z > 0.0
    ensures LowVariation(ConstVar(q, z - z), ConstMean(z, q, z - z), 0.10)
    ensures ConstMean(z, q, z - z) == z
  {
    var b := Product(0.10 * z, 0.10 * z);
    assert q * (1.0 - q) * ((z - z) * (z - z)) == 0.0;
  }

  lemma LowVariationOfZero(q: real)
    ensures LowVariation(ConstVar(q, 0.0 - 0.0), ConstMean(0.0, q, 0.0 - 0.0), 0.15)
  {
  }

  /** The fields after a regular stream, in closed form. */
  lemma SteadyFields(frames: seq<(real, real)>, gap: real, size: real)
    requires frames != [] && Steady(frames, gap, size)
    ensures var s, q := Watch(frames), Pow(|frames| - 1);
            && s.samples == |frames| - 1
            && s.meanGap == ConstMean(gap, q, 0.0 - gap) && s.varGap == ConstVar(q, 0.0 - gap)
            && s.meanSize == ConstMean(size, q, size - size) && s.varSize == ConstVar(q, size - size)
  {
    hide Watch, Mean, Var, Pow, ConstMean, ConstVar;
    FieldsAreMoments(frames);
    ConstantMoments(0.0, gap, Gaps(frames));
    ConstantMoments(size, size, Sizes(frames));
  }

  /** A perfectly regular stream of frames larger than 32 KiB with a positive gap is flagged
      from its 19th frame on and never before. */
  lemma RegularStreamFlaggedFrom19(frames: seq<(real, real)>, gap: real, size: real)
    requires frames != [] && Steady(frames, gap, size) && gap > 0.0 && size > BOT_LIKE_MIN_SIZE
    ensures Flagged(Watch(frames)) <==> |frames| >= 19
  {
    hide Watch, LowVariation, Pow, ConstMean, ConstVar, Steady;
    SteadyFields(frames, gap, size);
    FlagOfConstant(|frames| - 1, gap, size);
  }

  lemma FlagOfConstant(n: nat, gap: real, size: real)
    requires gap > 0.0 && size > BOT_LIKE_MIN_SIZE
    ensures ConstMean(size, Pow(n), size - size) == size
    ensures LowVariation(ConstVar(Pow(n), size - size), size, 0.10)
    ensures n >= 1 ==> (LowVariation(ConstVar(Pow(n), 0.0 - gap), ConstMean(gap, Pow(n), 0.0 - gap), 0.15) <==> n >= 18)
  {
    hide LowVariation, Pow, ConstMean, ConstVar;
    PowRange(n);
    Threshold(n);
    if n >= 1 { LowVariationOfConstant(Pow(n), gap); }
    LowVariationOfSame(Pow(n), size);
  }

  /** Frames that arrive together look perfectly regular at once: the first average gap is
      zero, so only the sample count delays the flag, to the 9th frame. */
  lemma SimultaneousStreamFlaggedFrom9(frames: seq<(real, real)>, size: real)
    requires frames != [] && Steady(frames, 0.0, size) && size > BOT_LIKE_MIN_SIZE
    ensures Flagged(Watch(frames)) <==> |frames| >= 9
  {
    hide Watch, LowVariation, Pow, ConstMean, ConstVar, Steady;
    SteadyFields(frames, 0.0, size);
    LowVariationOfZero(Pow(|frames| - 1));
    LowVariationOfSame(Pow(|frames| - 1), size);
  }

  /** A regular stream whose last frame has another size. */
  ghost predicate SteadyButLast(frames: seq<(real, real)>, gap: real, size: real, last: real) {
    && frames != [] && frames[|frames| - 1].1 == last
    && (forall k :: 0 <= k < |frames| - 1 ==> frames[k].1 == size)
    && (forall k :: 0 <= k < |frames| - 1 ==> frames[k + 1].0 - frames[k].0 == gap)
  }

  lemma SquaresOrdered(a: real, b: real)
    requires b > 0.0
    ensures a * a < b * b <==> -b < a < b
  {
    if -b < a < b {
      assert (b - a) * (b + a) > 0.0;
    } else {
      assert (a - b) * (a + b) >= 0.0;
    }
  }

  lemma OddSizeVariation(size: real, last: real)
    requires NextMean(size, last) > 0.0
    ensures LowVariation(NextVar(size, 0.0, last), NextMean(size, last), 0.10)
            <==> 21.0 * (size - last) < 5.0 * size && 19.0 * (last - size) < 5.0 * size
  {
    var d, m := last - size, NextMean(size, last);
    assert NextVar(size, 0.0, last) == 0.4 * d * (0.4 * d);
    SquaresOrdered(0.4 * d, 0.10 * m);
  }

  lemma OddSizeFields(frames: seq<(real, real)>, gap: real, size: real, last: real)
    requires |frames| >= 2 && SteadyButLast(frames, gap, size, last)
    ensures var s, q := Watch(frames), Pow(|frames| - 1);
            && s.samples == |frames| - 1
            && s.meanGap == ConstMean(gap, q, 0.0 - gap) && s.varGap == ConstVar(q, 0.0 - gap)
            && s.meanSize == NextMean(size, last) && s.varSize == NextVar(size, 0.0, last)
  {
    var xs := Sizes(frames);
    var n := |xs| - 1;
    hide Watch, Mean, Var, Pow, ConstMean, ConstVar, NextMean, NextVar;
    FieldsAreMoments(frames);
    ConstantMoments(0.0, gap, Gaps(frames));
    ConstantMoments(size, size, xs[..n]);
    MeanVarSnoc(size, xs);
    NoSpread(size, Pow(n));
  }

  lemma NoSpread(size: real, q: real)
    ensures ConstMean(size, q, size - size) == size && ConstVar(q, size - size) == 0.0
  {
  }

  /** How much one frame may differ in size: an evenly spaced stream is still flagged at its last frame
      exactly when the average size stays above 32 KiB and that frame is smaller than the others by less
      than five parts in 21, or larger by less than five in 19. */
  lemma OddSizeFlaggedIff(frames: seq<(real, real)>, gap: real, size: real, last: real)
    requires |frames| >= 19 && SteadyButLast(frames, gap, size, last) && gap > 0.0
    ensures Flagged(Watch(frames)) <==>
            && 0.8 * size + 0.2 * last > 32768.0
            && 21.0 * (size - last) < 5.0 * size && 19.0 * (last - size) < 5.0 * size
  {
    var n := |frames| - 1;
    OddSizeFields(frames, gap, size, last);
    PowRange(n);
    Threshold(n);
    LowVariationOfConstant(Pow(n), gap);
    assert NextMean(size, last) == 0.8 * size + 0.2 * last;
    if NextMean(size, last) > 0.0 { OddSizeVariation(size, last); }
    hide Watch, LowVariation, Pow, ConstMean, ConstVar, SteadyButLast, NextVar, NextMean;
  }
}
