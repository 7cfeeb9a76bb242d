/** What every interleaving of a suspended `pump` with acks, reconnects, disconnects,
    cancels, retries and ticks keeps of one outgoing record. */
module TransferSender {
  import opened Wrappers
  import opened Chunking
  import opened TransferRecords
  import opened TransferHeld

  type Schedule = seq<(OutEvent, Env)>

  function OutRun(L: Limits, o: Outgoing, evs: Schedule): Outgoing {
    if evs == [] then o else
      var last := evs[|evs| - 1];
      OutStep(L, OutRun(L, o, evs[..|evs| - 1]), last.0, last.1)
  }

  /** One pump at most, a bounded window, and nothing both acknowledged and in flight. */
  ghost predicate OutOk(L: Limits, o: Outgoing) {
    && |o.hands| <= 1
    && (o.pumping <==> |o.hands| == 1)
    && |o.inFlight| + |o.hands| <= L.window
    && o.inFlight.Keys !! o.acked
    && (forall i :: i in o.acked ==> i < o.total)
    && (forall i :: i in o.inFlight ==> i < o.total)
    && Below(o.queue, o.total)
    && Below(o.hands, o.total)
  }

  /** Every chunk is acknowledged, in flight, queued or in the hand of a suspended pump. */
  ghost predicate Covered(o: Outgoing) {
    forall i: nat :: i < o.total ==> i in o.acked || i in o.inFlight || i in o.queue || i in o.hands
  }

  /** The events that forget chunks in flight. */
  ghost predicate ClearsFlight(L: Limits, o: Outgoing, ev: OutEvent, env: Env) {
    ev.Cancelled? || ev.Connected? || ev.Retried? ||
    (ev.Disconnected? && o.status != Failed) ||
    (ev.Ticked? && !o.pumping && o.status == Active && !MustPump(L, o) && Expired(L, o, env.now) &&
     o.attempts + 1 > L.maxAttempts)
  }

  lemma MapShrinks(small: map<nat, int>, big: map<nat, int>)
    requires small.Keys <= big.Keys
    ensures |small| <= |big|
  {
    SetShrinks(small.Keys, big.Keys);
    assert |small| == |small.Keys| && |big| == |big.Keys|;
  }

  lemma {:induction false} SetShrinks(small: set<nat>, big: set<nat>)
    requires small <= big
    ensures |small| <= |big|
    decreases small
  {
    if small != {} {
      var x :| x in small;
      SetShrinks(small - {x}, big - {x});
    }
  }

  /** The pump loop, entered by the only running pump. */
  lemma {:induction false} PumpLoopKeeps(L: Limits, o: Outgoing, canSend: bool)
    requires o.pumping && o.hands == [] && OutOk(L, o.(pumping := false))
    ensures OutOk(L, PumpLoop(L, o, canSend))
    ensures Covered(o) ==> Covered(PumpLoop(L, o, canSend))
    ensures PumpLoop(L, o, canSend).total == o.total
    decreases |o.queue|
  {
    if o.status == Active && o.queue != [] && |o.inFlight| < L.window {
      var index := o.queue[0];
      assert o.queue == [index] + o.queue[1..];
      if index in o.acked || index in o.inFlight {
        PumpLoopKeeps(L, o.(queue := o.queue[1..]), canSend);
      }
    }
  }

  lemma AbsorbKeeps(L: Limits, o: Outgoing, have: seq<nat>, resend: bool, now: int)
    requires OutOk(L, o)
    ensures OutOk(L, AbsorbAck(L, o, have, resend, now))
    ensures Covered(o) || resend ==> Covered(AbsorbAck(L, o, have, resend, now))
  {
    var o' := AbsorbAck(L, o, have, resend, now);
    MapShrinks(o'.inFlight, o.inFlight);
    if resend {
      UnheldIsExact(o.total, o'.acked, o'.inFlight.Keys);
    }
  }

  lemma ResumeKeeps(L: Limits, o: Outgoing, k: nat, ok: bool, env: Env)
    requires OutOk(L, o) && k < |o.hands|
    ensures OutOk(L, Resume(L, o, k, ok, env))
    ensures Covered(o) ==> Covered(Resume(L, o, k, ok, env))
    ensures Resume(L, o, k, ok, env).total == o.total
  {
    var index := o.hands[k];
    assert o.hands == [index];
    if ok {
      var o1 := o.(hands := [], lastActivityAt := env.now,
                   inFlight := if index in o.acked then o.inFlight else o.inFlight[index := env.now]);
      assert o.hands[..k] + o.hands[k + 1..] == [];
      assert |o1.inFlight| <= L.window by {
        assert o1.inFlight.Keys <= o.inFlight.Keys + {index};
        SetShrinks(o1.inFlight.Keys, o.inFlight.Keys + {index});
        assert |o1.inFlight| == |o1.inFlight.Keys| && |o.inFlight| == |o.inFlight.Keys|;
      }
      PumpLoopKeeps(L, o1, env.canSend);
    }
  }

  /** Every event, wherever `pump` is suspended, keeps the record's invariant; every event
      that does not forget chunks in flight keeps the coverage a resend ack establishes. */
  lemma StepKeeps(L: Limits, o: Outgoing, ev: OutEvent, env: Env)
    requires OutOk(L, o)
    ensures OutOk(L, OutStep(L, o, ev, env))
    ensures OutStep(L, o, ev, env).total == o.total
    ensures Covered(o) && !ClearsFlight(L, o, ev, env) ==> Covered(OutStep(L, o, ev, env))
    ensures ev.Acked? && ev.resend ==> Covered(OutStep(L, o, ev, env))
  {
    match ev {
      case Started => PumpKeeps(L, o, env.canSend);
      case Acked(have, resend) =>
        AbsorbKeeps(L, o, have, resend, env.now);
        PumpKeeps(L, AbsorbAck(L, o, have, resend, env.now), env.canSend);
        hide OutOk, Covered, Pump;
      case SendResolved(k, ok) => if k < |o.hands| { ResumeKeeps(L, o, k, ok, env); }
      case Ticked => PumpKeeps(L, o, env.canSend); hide Pump, Backoff;
      case _ =>
    }
  }

  lemma PumpKeeps(L: Limits, o: Outgoing, canSend: bool)
    requires OutOk(L, o)
    ensures OutOk(L, Pump(L, o, canSend))
    ensures Covered(o) ==> Covered(Pump(L, o, canSend))
    ensures Pump(L, o, canSend).total == o.total
  {
    if !o.pumping { PumpLoopKeeps(L, o.(pumping := true), canSend); }
  }

  /** Over whole runs: whatever events a fresh record meets, in whatever order. */
  lemma {:induction false} RunKeepsOutOk(
      L: Limits, header: Header, data: Bytes, resume: bool, now: int, evs: Schedule)
    ensures OutOk(L, OutRun(L, NewOutgoing(header, data, resume, now), evs))
    decreases |evs|
  {
    if evs != [] {
      var k := |evs| - 1;
      RunKeepsOutOk(L, header, data, resume, now, evs[..k]);
      StepKeeps(L, OutRun(L, NewOutgoing(header, data, resume, now), evs[..k]), evs[k].0, evs[k].1);
    }
  }

  /** After a resend ack no chunk is lost from sight until an event clears the flight. */
  lemma {:induction false} ResendAckCovers(L: Limits, o: Outgoing, have: seq<nat>, env: Env, evs: Schedule)
    requires OutOk(L, o)
    requires forall k :: 0 <= k < |evs| ==>
      !ClearsFlight(L, OutRun(L, OutStep(L, o, Acked(have, true), env), evs[..k]), evs[k].0, evs[k].1)
    ensures Covered(OutRun(L, OutStep(L, o, Acked(have, true), env), evs))
    ensures OutOk(L, OutRun(L, OutStep(L, o, Acked(have, true), env), evs))
    decreases |evs|
  {
    hide OutStep, OutOk, Covered, ClearsFlight;
    var o1 := OutStep(L, o, Acked(have, true), env);
    if evs == [] {
      StepKeeps(L, o, Acked(have, true), env);
    } else {
      var k := |evs| - 1;
      assert forall j :: 0 <= j < k ==> evs[..k][..j] == evs[..j];
      ResendAckCovers(L, o, have, env, evs[..k]);
      StepKeeps(L, OutRun(L, o1, evs[..k]), evs[k].0, evs[k].1);
    }
  }

  /** A cancel that arrives while a chunk is being sent survives exactly when that send
      succeeds: a failed send overwrites `failed` with `waiting`, and the next tick on a
      usable link offers the cancelled transfer again. */
  lemma CancelDuringSend(L: Limits, o: Outgoing, ok: bool, env: Env, later: Env)
    requires OutOk(L, o) && |o.hands| == 1
    ensures var r := OutStep(L, OutStep(L, o, Cancelled, env), SendResolved(0, ok), later);
            && (r.status == Failed <==> ok)
            && (!ok ==> r.status == Waiting &&
                        OutStep(L, r, Ticked, later.(canSend := true)).status == Active &&
                        Queries(L, r, Ticked, later.(canSend := true)))
  {
  }

  // ---- A silent peer ------------------------------------------------------

  /** Everything is sent, or the window is full, and no pump is suspended. */
  ghost predicate Silent(L: Limits, o: Outgoing) { o.status == Active && !o.pumping && !MustPump(L, o) }

  /** The record after timer ticks at the given times, on a usable link, with no ack. */
  function TickRun(L: Limits, o: Outgoing, times: seq<int>): Outgoing
    decreases |times|
  {
    if times == [] then o else TickRun(L, OutStep(L, o, Ticked, Env(times[0], true)), times[1..])
  }

  /** The silence tolerated from the a-th attempt on. */
  function Patience(L: Limits, a: nat): nat
    decreases L.maxAttempts + 1 - a
  {
    if a > L.maxAttempts then 0 else Backoff(L, a) + Patience(L, a + 1)
  }

  /** The timer fires at least every `gap` milliseconds from `start` on. */
  ghost predicate Ticks(start: int, times: seq<int>, gap: nat)
    decreases |times|
  {
    times != [] ==> start <= times[0] <= start + gap && Ticks(times[0], times[1..], gap)
  }

  lemma {:induction false} FailedStaysFailed(L: Limits, o: Outgoing, times: seq<int>)
    requires o.status == Failed
    ensures TickRun(L, o, times).status == Failed
    decreases |times|
  {
    if times != [] {
      FailedStaysFailed(L, OutStep(L, o, Ticked, Env(times[0], true)), times[1..]);
    }
  }

  /** The same with every attempt noticed one tick gap late. */
  function LatePatience(L: Limits, a: nat, gap: nat): (r: nat)
    ensures r >= Patience(L, a)
    decreases L.maxAttempts + 1 - a
  {
    if a > L.maxAttempts then 0 else Backoff(L, a) + gap + LatePatience(L, a + 1, gap)
  }

  lemma {:induction false} LatePatienceIsLinear(L: Limits, a: nat, gap: nat)
    requires a <= L.maxAttempts + 1
    ensures LatePatience(L, a, gap) == Patience(L, a) + (L.maxAttempts + 1 - a) * gap
    decreases L.maxAttempts + 1 - a
  {
    if a <= L.maxAttempts {
      LatePatienceIsLinear(L, a + 1, gap);
      assert (L.maxAttempts + 1 - a) * gap == (L.maxAttempts - a) * gap + gap;
    }
  }

  lemma {:induction false} SilenceRunsOut(L: Limits, o: Outgoing, p: int, times: seq<int>, gap: nat)
    requires Silent(L, o) && o.attempts <= L.maxAttempts
    requires o.lastActivityAt <= p <= o.lastActivityAt + Backoff(L, o.attempts)
    requires Ticks(p, times, gap)
    ensures times != [] && times[|times| - 1] > o.lastActivityAt + LatePatience(L, o.attempts, gap)
            ==> TickRun(L, o, times).status == Failed
    ensures (forall k :: 0 <= k < |times| ==> times[k] < o.lastActivityAt + Patience(L, o.attempts))
            ==> TickRun(L, o, times).status == Active
    decreases |times|
  {
    if times != [] {
      var t := times[0];
      var o1 := OutStep(L, o, Ticked, Env(t, true));
      assert forall k :: 0 <= k < |times| - 1 ==> times[1..][k] == times[k + 1];
      if !Expired(L, o, t) {
        SilenceRunsOut(L, o1, t, times[1..], gap);
      } else if o.attempts < L.maxAttempts {
        assert o1 == o.(attempts := o.attempts + 1, lastActivityAt := t);
        SilenceRunsOut(L, o1, t, times[1..], gap);
        if |times| == 1 {
          assert LatePatience(L, o1.attempts, gap) >= Backoff(L, o1.attempts);
        }
      } else {
        FailedStaysFailed(L, o1, times[1..]);
      }
    }
  }

  /** A peer that never answers is given up on no earlier than the summed back-off and no
      later than that plus one tick gap per attempt. */
  lemma SilentPeerFails(L: Limits, o: Outgoing, times: seq<int>, gap: nat)
    requires Silent(L, o) && o.attempts == 0
    requires Ticks(o.lastActivityAt, times, gap)
    ensures times != [] &&
            times[|times| - 1] > o.lastActivityAt + Patience(L, 0) + (L.maxAttempts + 1) * gap
            ==> TickRun(L, o, times).status == Failed
    ensures (forall k :: 0 <= k < |times| ==> times[k] < o.lastActivityAt + Patience(L, 0))
            ==> TickRun(L, o, times).status == Active
  {
    SilenceRunsOut(L, o, o.lastActivityAt, times, gap);
    LatePatienceIsLinear(L, 0, gap);
  }

  /** At the default limits the back-off sums to 31 stall periods (155 seconds). */
  lemma DefaultPatience()
    ensures Patience(DEFAULT_LIMITS, 0) == 31 * DEFAULT_LIMITS.stallMs == 155000
  {
    var L := DEFAULT_LIMITS;
    assert Pow2(0) == 1 && Pow2(1) == 2 && Pow2(2) == 4 && Pow2(3) == 8;
    assert Pow2(4) == 16 && Pow2(5) == 32 && Pow2(6) == 64;
    assert Patience(L, 7) == 0;
    assert Patience(L, 6) == 6 * 5000;
    assert Patience(L, 5) == 12 * 5000;
    assert Patience(L, 4) == 18 * 5000;
    assert Patience(L, 3) == 24 * 5000;
    assert Patience(L, 2) == 28 * 5000;
    assert Patience(L, 1) == 30 * 5000;
  }
}
