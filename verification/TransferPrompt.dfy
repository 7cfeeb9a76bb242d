/** A transfer over a link that loses nothing: when acks alone carry it to its end, without the timer
    of either side. */
module TransferPrompts {
  import opened Wrappers
  import opened Chunking
  import opened TransferRecords
  import opened TransferHeld
  import opened TransferSender
  import opened TransferProtocol
  import opened TransferSafety
  import opened TransferRuns
  import opened TransferCompletion
  import opened TransferStarts
  import opened TransferEvents
  import opened TransferRecovery

  /** Messages arrive and sends and saves end; no timer, no connection, no user. */
  predicate Untimed(act: Act) { act.Receive? || act.PumpReturns? || act.HashDone? || act.SaveVisible? || act.SaveDone? }

  ghost predicate NoTimer(evs: seq<Event>) { forall k :: 0 <= k < |evs| ==> Untimed(evs[k].act) }

  lemma NoTimerJoins(xs: seq<Event>, ys: seq<Event>)
    requires NoTimer(xs) && NoTimer(ys)
    ensures NoTimer(xs + ys)
  {
    hide Untimed;
  }

  /** Two idle engines, and a transfer just started at the first. */
  ghost function Started(L: Limits, id: Id, p: Payload, env: Env): Sys {
    Sys(Start(L, Idle(), id, p, false, env), Idle())
  }

  function Total(p: Payload): nat { ChunkCount(|p.data|, CHUNK_BYTES) }

  // ---- With acks too rare -------------------------------------------------

  /** A record of which the first j chunks are in flight, and chunk j may be on its way out. */
  ghost predicate Few(L: Limits, o: Outgoing, j: nat) {
    && o.acked == {} && o.status != Failed && o.inFlight.Keys == UpTo(j) && j <= L.window && j <= o.total
    && ((o.hands == [j] && o.pumping && j < L.window && j < o.total && o.queue == Upto(o.total)[j + 1..])
        || (o.hands == [] && !o.pumping && o.queue == Upto(o.total)[j..]))
  }

  /** The sender has sent no chunk beyond its first window, and nothing is acknowledged. */
  ghost predicate FirstWindow(L: Limits, x: Engine, id: Id, p: Payload) {
    && x.inc == map[] && x.saving == map[] && x.out.Keys == {id}
    && (forall m :: m in x.sent ==> m.Chunk? && m.id == id && m.index < L.window)
    && x.out[id].total == Total(p) && exists j: nat :: Few(L, x.out[id], j)
  }

  /** The receiver has only parts of it, and has said nothing. */
  ghost predicate Mute(L: Limits, y: Engine, id: Id) {
    && y.out == map[] && y.saving == map[] && y.stored == map[] && y.sent == {} && y.inc.Keys <= {id}
    && (id in y.inc ==>
          && y.inc[id].sinceAck == y.inc[id].received
          && forall k :: 0 <= k < |y.inc[id].parts| && y.inc[id].parts[k].Some? ==> k < L.window)
  }

  /** The record after its one send fails ... */
  lemma FailKeepsFew(L: Limits, o: Outgoing, j: nat, env: Env)
    requires Few(L, o, j) && o.hands != []
    ensures Few(L, Resume(L, o, 0, false, env), j) && Resume(L, o, 0, false, env).total == o.total
  {
    assert o.hands[..0] + o.hands[1..] == [];
    assert [j] + Upto(o.total)[j + 1..] == Upto(o.total)[j..];
    hide UpTo, Upto;
  }

  /** ... or succeeds. */
  lemma SuccessKeepsFew(L: Limits, o: Outgoing, j: nat, env: Env)
    requires Few(L, o, j) && o.hands != []
    ensures Few(L, Resume(L, o, 0, true, env), j + 1) && Resume(L, o, 0, true, env).total == o.total
  {
    assert o.hands[..0] + o.hands[1..] == [];
    CountUpTo(j + 1);
    var o1 := o.(hands := [], lastActivityAt := env.now, inFlight := o.inFlight[j := env.now]);
    assert o1.inFlight.Keys == UpTo(j) + {j} == UpTo(j + 1);
    assert |o1.inFlight| == |o1.inFlight.Keys| == j + 1;
    assert Resume(L, o, 0, true, env) == PumpLoop(L, o1, env.canSend);
    hide Resume, UpTo;
    LoopKeepsFew(L, o1, j + 1, env.canSend);
  }

  lemma LoopKeepsFew(L: Limits, o: Outgoing, j: nat, canSend: bool)
    requires o.acked == {} && o.status != Failed && o.inFlight.Keys == UpTo(j) && j <= L.window && j <= o.total
    requires o.pumping && o.hands == [] && o.queue == Upto(o.total)[j..] && |o.inFlight| == j && j !in o.inFlight
    ensures Few(L, PumpLoop(L, o, canSend), j) && PumpLoop(L, o, canSend).total == o.total
  {
    if j < o.total { assert o.queue[0] == j && o.queue[1..] == Upto(o.total)[j + 1..]; }
    hide UpTo, Upto;
  }

  /** Nothing but the end of its one send changes an engine that only sends. */
  lemma OnlySendsMatter(L: Limits, x: Engine, act: Act, env: Env, id: Id)
    requires x.inc == map[] && x.saving == map[] && x.out.Keys <= {id} && Untimed(act) && !act.Receive?
    requires act.PumpReturns? && act.id in x.out ==> act.k >= |x.out[id].hands|
    ensures Step(L, x, act, env) == x
  {
    if act.PumpReturns? && act.id in x.out {
      var o := x.out[id];
      assert OutStep(L, o, SendResolved(act.k, act.ok), env) == o;
      assert OutMsgs(L, id, o, SendResolved(act.k, act.ok), env) == {};
      assert x.out[id := o] == x.out;
    }
    hide OutStep, OutMsgs;
  }

  lemma ResolvedIs(L: Limits, id: Id, o: Outgoing, ok: bool, env: Env)
    requires |o.hands| == 1
    ensures var r := Resume(L, o, 0, ok, env);
            && OutStep(L, o, SendResolved(0, ok), env) == r
            && OutMsgs(L, id, o, SendResolved(0, ok), env)
               == if r.hands == [] then {} else {ChunkOf(id, r, r.hands[|r.hands| - 1])}
  {
    hide Resume, ChunkOf;
  }

  lemma SendEnds(L: Limits, x: Engine, ok: bool, env: Env, id: Id, p: Payload)
    requires FirstWindow(L, x, id, p) && x.out[id].hands != []
    ensures FirstWindow(L, Step(L, x, PumpReturns(id, 0, ok), env), id, p)
  {
    hide Resume, Few, OutStep, OutMsgs, ChunkOf;
    var o := x.out[id];
    var j: nat :| Few(L, o, j);
    HandsOf(L, o, j);
    var n := if ok then j + 1 else j;
    if ok { SuccessKeepsFew(L, o, j, env); } else { FailKeepsFew(L, o, j, env); }
    var r := Resume(L, o, 0, ok, env);
    HandsOf(L, r, n);
    ResolvedIs(L, id, o, ok, env);
    PlacedFew(L, x, Step(L, x, PumpReturns(id, 0, ok), env), id, p, r, n);
  }

  lemma HandsOf(L: Limits, o: Outgoing, j: nat)
    requires Few(L, o, j)
    ensures |o.hands| <= 1 && (o.hands != [] ==> o.hands == [j] && j < L.window)
  {
    hide UpTo, Upto;
  }

  lemma PlacedFew(L: Limits, x: Engine, x': Engine, id: Id, p: Payload, r: Outgoing, n: nat)
    requires FirstWindow(L, x, id, p) && Few(L, r, n) && r.total == Total(p)
    requires r.hands != [] ==> r.hands == [n] && n < L.window
    requires x' == x.(out := x.out[id := r],
                      sent := x.sent + if r.hands == [] then {} else {ChunkOf(id, r, r.hands[|r.hands| - 1])})
    ensures FirstWindow(L, x', id, p)
  {
    hide Few, Slice, ChunkCount;
  }

  lemma FirstWindowStep(L: Limits, x: Engine, act: Act, env: Env, id: Id, p: Payload)
    requires FirstWindow(L, x, id, p) && Untimed(act) && !act.Receive?
    ensures FirstWindow(L, Step(L, x, act, env), id, p)
  {
    hide Step, Few;
    if act.PumpReturns? && act.id == id && act.k < |x.out[id].hands| {
      OneHand(L, x, id, p);
      SendEnds(L, x, act.ok, env, id, p);
    } else {
      OnlySendsMatter(L, x, act, env, id);
    }
  }

  lemma OneHand(L: Limits, x: Engine, id: Id, p: Payload)
    requires FirstWindow(L, x, id, p)
    ensures |x.out[id].hands| <= 1
  {
    hide UpTo, Upto;
  }

  lemma {:induction false} HeldBelow(parts: seq<Option<Bytes>>, w: nat)
    requires forall k :: 0 <= k < |parts| && parts[k].Some? ==> k < w
    ensures |Held(parts)| <= w
    decreases |parts|
  {
    if parts != [] {
      var n := |parts| - 1;
      if parts[n].Some? {
        assert n < w;
        FullIsAllHeld(parts[..n]);
      } else {
        HeldBelow(parts[..n], w);
      }
    }
  }

  lemma OnlyPartsMatter(L: Limits, y: Engine, act: Act, env: Env, id: Id)
    requires Mute(L, y, id) && Untimed(act) && !act.Receive?
    requires id in y.inc ==> y.inc[id].phase == Collecting
    ensures Step(L, y, act, env) == y
  {
  }

  lemma RoomLeft(L: Limits, i: Incoming, k: nat, d: Bytes, p: Payload)
    requires InMatches(i, p) && k < |i.parts| && i.parts[k].None? && k < L.window
    requires forall j :: 0 <= j < |i.parts| && i.parts[j].Some? ==> j < L.window
    ensures i.received + 1 <= L.window
  {
    OneMoreHeld(i.parts, k, d);
    HeldBelow(i.parts[k := Some(d)], L.window);
    hide Held, Slice, ChunkCount;
  }

  ghost predicate Room(L: Limits, p: Payload) {
    L.maxIncomingPerRoom >= 1 && |p.data| <= L.maxIncomingBytesPerRoom && L.window >= 1
  }

  lemma FirstIsMute(L: Limits, y: Engine, c: Msg, env: Env, p: Payload)
    requires Mute(L, y, c.id) && c.Chunk? && c.id !in y.inc && Decodes(c) && c.index < L.window && c.header.size == |p.data|
    requires L.ackEvery >= 2 && c.total >= 2 && Room(L, p)
    ensures Mute(L, Step(L, y, Receive(c), env), c.id)
  {
    assert y.inc == map[] && PendingBytes(map[]) == 0;
    assert !Busy(L, y, c) && c.index < c.total;
    hide PendingBytes, Busy, Decodes, Held;
  }

  lemma KnownIsMute(L: Limits, y: Engine, c: Msg, env: Env, p: Payload)
    requires Mute(L, y, c.id) && c.Chunk? && c.id in y.inc && InMatches(y.inc[c.id], p) && Decodes(c) && c.index < L.window
    requires L.window < L.ackEvery && L.window < Total(p) && p.Ok()
    ensures Mute(L, Step(L, y, Receive(c), env), c.id)
  {
    var i := y.inc[c.id];
    assert |i.parts| == i.total == Total(p);
    KnownChunkIs(L, y, c, env);
    if Belongs(i, c) && i.phase == Collecting && i.parts[c.index].None? { RoomLeft(L, i, c.index, c.data, p); }
    hide Step, Decodes, Held, InMatches, ChunkCount, Slice, Belongs;
  }

  // ---- Both ends ----------------------------------------------------------

  ghost predicate Stuck(L: Limits, s: Sys, id: Id, p: Payload, ca: Catalog) {
    FirstWindow(L, s.a, id, p) && Mute(L, s.b, id) && OneWay(L, s.a, s.b, ca)
  }

  lemma MuteReceives(L: Limits, s: Sys, m: Msg, env: Env, id: Id, p: Payload, ca: Catalog)
    requires Stuck(L, s, id, p, ca) && CatalogOk(ca) && id in ca && ca[id] == p && Room(L, p) && m in s.a.sent
    requires L.window < L.ackEvery && L.window < Total(p)
    ensures Mute(L, Step(L, s.b, Receive(m), env), id)
  {
    assert p.Ok() && m.Chunk? && m.id == id && m.index < L.window && ChunkMatches(m, p);
    HonestChunkDecodes(m, p);
    if id in s.b.inc {
      assert InMatches(s.b.inc[id], p);
      hide OneWay, FirstWindow, Mute, CatalogOk, Decodes, ChunkMatches;
      KnownIsMute(L, s.b, m, env, p);
    } else {
      assert m.total == Total(p) && m.header.size == |p.data|;
      hide OneWay, FirstWindow, Mute, CatalogOk, Decodes, ChunkMatches;
      FirstIsMute(L, s.b, m, env, p);
    }
  }

  lemma MuteStep(L: Limits, s: Sys, act: Act, env: Env, id: Id, p: Payload, ca: Catalog)
    requires Stuck(L, s, id, p, ca) && CatalogOk(ca) && id in ca && ca[id] == p && Room(L, p)
    requires L.window < L.ackEvery && L.window < Total(p)
    requires Untimed(act) && (act.Receive? ==> act.msg in s.a.sent)
    ensures Mute(L, Step(L, s.b, act, env), id)
  {
    if act.Receive? {
      MuteReceives(L, s, act.msg, env, id, p, ca);
    } else {
      if id in s.b.inc { NotYetFull(L, s.b.inc[id], p, ca, s, id); }
      OnlyPartsMatter(L, s.b, act, env, id);
    }
  }

  lemma NotYetFull(L: Limits, i: Incoming, p: Payload, ca: Catalog, s: Sys, id: Id)
    requires Stuck(L, s, id, p, ca) && id in ca && ca[id] == p && id in s.b.inc && i == s.b.inc[id] && L.window < Total(p)
    requires p.Ok()
    ensures i.phase == Collecting
  {
    assert InMatches(i, p);
    HeldBelow(i.parts, L.window);
    hide Held, Slice, ChunkCount, FirstWindow;
  }

  lemma StuckStep(L: Limits, s: Sys, ev: Event, id: Id, p: Payload, ca: Catalog, cb: Catalog)
    requires Stuck(L, s, id, p, ca) && CatalogOk(ca) && id in ca && ca[id] == p && Room(L, p)
    requires L.window < L.ackEvery && L.window < Total(p) && Untimed(ev.act) && Possible(s, ev, ca, cb)
    ensures Stuck(L, Apply(L, s, ev), id, p, ca)
  {
    assert s.b.sent == {} && p.Ok();
    FromOne(L, s, ev, ca, cb);
    FromIsSound(L, s, [ev], ca, cb);
    hide FirstWindow, OneWay, CatalogOk, Step, LegalFrom, RunFrom;
    if ev.atA { FirstWindowStep(L, s.a, ev.act, ev.env, id, p); } else { MuteStep(L, s, ev.act, ev.env, id, p, ca); }
  }

  lemma {:induction false} StaysStuck(L: Limits, s: Sys, evs: seq<Event>, id: Id, p: Payload, ca: Catalog, cb: Catalog)
    requires Stuck(L, s, id, p, ca) && CatalogOk(ca) && id in ca && ca[id] == p && Room(L, p)
    requires L.window < L.ackEvery && L.window < Total(p) && NoTimer(evs) && LegalFrom(L, s, evs, ca, cb)
    ensures id !in RunFrom(L, s, evs).b.stored
    decreases |evs|
  {
    if evs != [] {
      assert Untimed(evs[0].act) && NoTimer(evs[1..]);
      hide Stuck, CatalogOk, Apply, Possible, NoTimer, Untimed;
      StuckStep(L, s, evs[0], id, p, ca, cb);
      StaysStuck(L, Apply(L, s, evs[0]), evs[1..], id, p, ca, cb);
    } else {
      hide FirstWindow, OneWay, CatalogOk;
    }
  }

  // ---- With acks often enough ---------------------------------------------

  function Between(m: nat, k: nat): set<nat> { UpTo(k) - UpTo(m) }

  lemma {:induction false} UpToHas(k: nat, i: nat)
    ensures i in UpTo(k) <==> i < k
  {
    if k > 0 { UpToHas(k - 1, i); }
  }

  lemma {:induction false} CountBetween(m: nat, k: nat)
    requires m <= k
    ensures |Between(m, k)| == k - m
  {
    if m < k {
      CountBetween(m, k - 1);
      UpToHas(m, k - 1);
      UpToHas(k - 1, k - 1);
      assert Between(m, k) == Between(m, k - 1) + {k - 1};
    } else {
      assert Between(m, k) == {};
    }
  }

  /** Chunks 0 to m - 1 are acknowledged, m to k - 1 in flight; chunk k is on its way out, or the pump rests. */
  ghost predicate Underway(o: Outgoing, p: Payload, k: nat, m: nat, moving: bool) {
    && o.header == p.header && o.data == p.data && o.total == Total(p) && o.status == Active && m <= k <= o.total
    && o.acked == UpTo(m) && o.inFlight.Keys == Between(m, k)
    && if moving then k < o.total && o.hands == [k] && o.pumping && o.queue == Upto(o.total)[k + 1..]
       else o.hands == [] && !o.pumping && o.queue == Upto(o.total)[k..]
  }

  /** The pump at a record with room in its window. */
  lemma PumpGoesOn(L: Limits, o: Outgoing, p: Payload, k: nat, m: nat)
    requires Underway(o.(pumping := false), p, k, m, false) && o.pumping
    ensures Underway(PumpLoop(L, o, true), p, k, m, k < o.total && k - m < L.window)
  {
    CountBetween(m, k);
    UpToHas(m, k);
    UpToHas(k, k);
    assert |o.inFlight| == |o.inFlight.Keys| == k - m;
    assert k !in o.acked && k !in o.inFlight.Keys;
    if k < o.total { assert o.queue[0] == k && o.queue[1..] == Upto(o.total)[k + 1..]; }
    hide UpTo, Between, Upto, ChunkCount;
  }

  /** A send that succeeds. */
  lemma SendGoesOn(L: Limits, o: Outgoing, p: Payload, k: nat, m: nat, env: Env)
    requires Underway(o, p, k, m, true) && env.canSend
    ensures Underway(Resume(L, o, 0, true, env), p, k + 1, m, k + 1 < o.total && k + 1 - m < L.window)
  {
    UpToHas(m, k);
    assert o.hands[..0] + o.hands[1..] == [] && k !in o.acked;
    var o1 := o.(hands := [], lastActivityAt := env.now, inFlight := o.inFlight[k := env.now]);
    assert Resume(L, o, 0, true, env) == PumpLoop(L, o1, true);
    assert o1.pumping && o1.total == o.total;
    PutInFlight(o, p, k, m, env.now);
    hide Resume, Underway, UpTo;
    PumpGoesOn(L, o1, p, k + 1, m);
  }

  lemma PutInFlight(o: Outgoing, p: Payload, k: nat, m: nat, now: int)
    requires Underway(o, p, k, m, true)
    ensures var o1 := o.(hands := [], lastActivityAt := now, inFlight := o.inFlight[k := now]);
            Underway(o1.(pumping := false), p, k + 1, m, false)
  {
    UpToHas(m, k);
    assert Between(m, k) + {k} == Between(m, k + 1);
    assert o.inFlight[k := now].Keys == o.inFlight.Keys + {k};
    hide UpTo, Between, Upto, ChunkCount;
  }

  /** A plain ack of all that is sent frees the window. */
  lemma AckGoesOn(L: Limits, o: Outgoing, p: Payload, k: nat, m: nat, moving: bool, have: seq<nat>, env: Env)
    requires Underway(o, p, k, m, moving) && env.canSend && L.window >= 1
    requires forall i: nat :: i in have <==> i < k
    ensures Underway(OutStep(L, o, Acked(have, false), env), p, k, k, k < o.total)
  {
    var o1 := AbsorbAck(L, o, have, false, env.now);
    Absorbed(L, o, p, k, m, moving, have, env.now);
    assert o1.pumping == moving && o1.total == o.total;
    hide AbsorbAck, Underway;
    if moving {
      assert Pump(L, o1, true) == o1;
    } else {
      assert Pump(L, o1, true) == PumpLoop(L, o1.(pumping := true), true);
      assert o1.(pumping := true).(pumping := false) == o1;
      hide Pump;
      PumpGoesOn(L, o1.(pumping := true), p, k, k);
    }
    MovingIsInside(o1, p, k, moving);
  }

  lemma MovingIsInside(o: Outgoing, p: Payload, k: nat, moving: bool)
    requires Underway(o, p, k, k, moving)
    ensures moving ==> k < o.total
  {
    hide UpTo, Between, Upto, ChunkCount;
  }

  lemma Absorbed(L: Limits, o: Outgoing, p: Payload, k: nat, m: nat, moving: bool, have: seq<nat>, now: int)
    requires Underway(o, p, k, m, moving) && forall i: nat :: i in have <==> i < k
    ensures Underway(AbsorbAck(L, o, have, false, now), p, k, k, moving)
  {
    forall i: nat ensures i in UpTo(k) <==> i < k { UpToHas(k, i); }
    forall i: nat ensures i in UpTo(m) <==> i < m { UpToHas(m, i); }
    assert Known(have, o.total) == UpTo(k);
    assert UpTo(m) + UpTo(k) == UpTo(k) && Between(m, k) - UpTo(k) == {} == Between(k, k);
    hide UpTo, Between, Upto, ChunkCount, Known;
  }

  /** The sender at a stage. */
  ghost predicate SenderAt(x: Engine, id: Id, p: Payload, k: nat, m: nat, moving: bool) {
    id in x.out && Underway(x.out[id], p, k, m, moving) && (moving ==> ChunkNo(id, p, k) in x.sent)
  }

  lemma HandIs(o: Outgoing, p: Payload, k: nat, m: nat, moving: bool)
    requires Underway(o, p, k, m, moving)
    ensures o.hands == (if moving then [k] else []) && o.total == Total(p) && o.header == p.header && o.data == p.data
  {
    hide UpTo, Between, Upto, ChunkCount;
  }

  /** A record put in place, its chunk in hand sent. */
  lemma PlacedUnderway(x: Engine, x': Engine, id: Id, p: Payload, r: Outgoing, k: nat, m: nat, moving: bool)
    requires p.Ok() && Underway(r, p, k, m, moving) && x'.out == x.out[id := r] && x.sent <= x'.sent
    requires moving ==> ChunkOf(id, r, k) in x'.sent
    ensures SenderAt(x', id, p, k, m, moving)
  {
    HandIs(r, p, k, m, moving);
    hide Underway, Slice, ChunkCount;
  }

  lemma SenderSends(L: Limits, x: Engine, id: Id, p: Payload, k: nat, m: nat, env: Env)
    requires SenderAt(x, id, p, k, m, true) && env.canSend && p.Ok()
    ensures var r := Step(L, x, PumpReturns(id, 0, true), env);
            SenderAt(r, id, p, k + 1, m, k + 1 < Total(p) && k + 1 - m < L.window) && x.sent <= r.sent
  {
    hide Resume, OutStep, OutMsgs, Underway, ChunkOf, ChunkNo, Payload.Ok;
    var o := x.out[id];
    HandIs(o, p, k, m, true);
    SendGoesOn(L, o, p, k, m, env);
    ResolvedIs(L, id, o, true, env);
    var r, moving := Resume(L, o, 0, true, env), k + 1 < Total(p) && k + 1 - m < L.window;
    HandIs(r, p, k + 1, m, moving);
    PlacedUnderway(x, Step(L, x, PumpReturns(id, 0, true), env), id, p, r, k + 1, m, moving);
  }

  lemma AckedMsgs(L: Limits, id: Id, o: Outgoing, have: seq<nat>, env: Env, k: nat)
    requires o.hands == [] && OutStep(L, o, Acked(have, false), env).hands == [k]
    ensures ChunkOf(id, OutStep(L, o, Acked(have, false), env), k) in OutMsgs(L, id, o, Acked(have, false), env)
  {
    hide OutStep, ChunkOf;
  }

  lemma SenderHears(L: Limits, x: Engine, id: Id, p: Payload, k: nat, m: nat, moving: bool, have: seq<nat>, env: Env)
    requires SenderAt(x, id, p, k, m, moving) && env.canSend && p.Ok() && L.window >= 1
    requires (forall i: nat :: i in have <==> i < k) && Decodes(Ack(id, have, false, false))
    ensures SenderAt(Step(L, x, Receive(Ack(id, have, false, false)), env), id, p, k, k, k < Total(p))
  {
    hide OutStep, OutMsgs, Underway, Payload.Ok, Decodes, ChunkCount, Slice;
    var o := x.out[id];
    HandIs(o, p, k, m, moving);
    AckGoesOn(L, o, p, k, m, moving, have, env);
    var r := OutStep(L, o, Acked(have, false), env);
    HandIs(r, p, k, k, k < Total(p));
    if k < Total(p) && !moving { AckedMsgs(L, id, o, have, env, k); }
    SameSlice(id, o, r, p, k);
    hide ChunkOf, ChunkNo;
    PlacedUnderway(x, Step(L, x, Receive(Ack(id, have, false, false)), env), id, p, r, k, k, k < Total(p));
  }

  lemma SameSlice(id: Id, o: Outgoing, r: Outgoing, p: Payload, k: nat)
    requires p.Ok() && o.header == r.header == p.header && o.data == r.data == p.data && o.total == r.total == Total(p)
    ensures ChunkOf(id, r, k) == ChunkOf(id, o, k) == ChunkNo(id, p, k)
  {
  }

  /** The receiver at a stage: it has the first k parts, the last k - m of them since its last ack. */
  ghost predicate ReceiverAt(y: Engine, id: Id, p: Payload, k: nat, m: nat) {
    if k == 0 then y == Idle() && m == 0
    else
      && id in y.inc && InMatches(y.inc[id], p) && m <= k && y.inc[id].sinceAck == k - m
      && (forall j :: 0 <= j < |y.inc[id].parts| ==> (y.inc[id].parts[j].Some? <==> j < k))
  }

  /** An ack is due with the part after the first k. */
  predicate Due(L: Limits, p: Payload, k: nat, m: nat) { k + 1 < Total(p) && k + 1 - m >= L.ackEvery }

  lemma ReceiverTakes(L: Limits, y: Engine, id: Id, p: Payload, k: nat, m: nat, env: Env)
    requires ReceiverAt(y, id, p, k, m) && p.Ok() && Room(L, p) && k < Total(p) && m <= k
    ensures var r := Step(L, y, Receive(ChunkNo(id, p, k)), env);
            && ReceiverAt(r, id, p, k + 1, if Due(L, p, k, m) then k + 1 else m)
            && id in r.inc
            && (Due(L, p, k, m) ==> Ack(id, Held(r.inc[id].parts), false, false) in r.sent)
            && (k + 1 == Total(p) <==> r.inc[id].phase == Hashing)
  {
    var c := ChunkNo(id, p, k);
    HonestChunkDecodes(c, p);
    if k == 0 { ReceiverOpens(L, y, id, p, env); } else { ReceiverAdds(L, y, id, p, k, m, env); }
  }

  lemma ReceiverOpens(L: Limits, y: Engine, id: Id, p: Payload, env: Env)
    requires y == Idle() && p.Ok() && Room(L, p) && Decodes(ChunkNo(id, p, 0))
    ensures var r := Step(L, y, Receive(ChunkNo(id, p, 0)), env);
            && ReceiverAt(r, id, p, 1, if Due(L, p, 0, 0) then 1 else 0)
            && id in r.inc
            && (Due(L, p, 0, 0) ==> Ack(id, Held(r.inc[id].parts), false, false) in r.sent)
            && (1 == Total(p) <==> r.inc[id].phase == Hashing)
  {
    var c := ChunkNo(id, p, 0);
    assert !Busy(L, y, c);
    NewMatches(p, env.now, 0);
    var i := NewIncoming(p.header, Total(p), env.now, 0);
    StorePartMatches(i, 0, c.data, env.now, p);
    SinceAckMatches(StorePart(i, 0, c.data, env.now), p);
    hide InMatches, Decodes, Busy, Held, Slice, ChunkCount;
  }

  lemma ReceiverAdds(L: Limits, y: Engine, id: Id, p: Payload, k: nat, m: nat, env: Env)
    requires k > 0 && ReceiverAt(y, id, p, k, m) && p.Ok() && k < Total(p) && Decodes(ChunkNo(id, p, k))
    ensures var r := Step(L, y, Receive(ChunkNo(id, p, k)), env);
            && ReceiverAt(r, id, p, k + 1, if Due(L, p, k, m) then k + 1 else m)
            && id in r.inc
            && (Due(L, p, k, m) ==> Ack(id, Held(r.inc[id].parts), false, false) in r.sent)
            && (k + 1 == Total(p) <==> r.inc[id].phase == Hashing)
  {
    var c, i := ChunkNo(id, p, k), y.inc[id];
    HasFirst(i, p, k);
    KnownChunkIs(L, y, c, env);
    StorePartMatches(i, k, c.data, env.now, p);
    SinceAckMatches(StorePart(i, k, c.data, env.now), p);
    assert i.header == p.header && i.total == |i.parts| == Total(p) && i.parts[k].None?;
    hide InMatches, Decodes, Held, Slice, ChunkCount, Step;
  }

  lemma HasFirst(i: Incoming, p: Payload, k: nat)
    requires InMatches(i, p) && k < |i.parts| && forall j :: 0 <= j < |i.parts| ==> (i.parts[j].Some? <==> j < k)
    ensures i.received == k && i.phase == Collecting
  {
    CountFirst(i.parts, k);
    hide Held, Slice, ChunkCount;
  }

  lemma {:induction false} CountFirst(parts: seq<Option<Bytes>>, k: nat)
    requires k <= |parts| && forall j :: 0 <= j < |parts| ==> (parts[j].Some? <==> j < k)
    ensures |Held(parts)| == k
    decreases |parts|
  {
    if parts != [] {
      var n := |parts| - 1;
      CountFirst(parts[..n], if k <= n then k else n);
    }
  }

  /** Both ends after k chunks. */
  ghost predicate Stage(L: Limits, s: Sys, id: Id, p: Payload, k: nat, m: nat, ca: Catalog) {
    && OneWay(L, s.a, s.b, ca) && m <= k <= Total(p)
    && SenderAt(s.a, id, p, k, m, k < Total(p)) && ReceiverAt(s.b, id, p, k, m)
    && (m < k < Total(p) ==> k - m < L.ackEvery)
    && (k == Total(p) ==> id in s.b.inc && s.b.inc[id].phase == Hashing)
  }

  ghost predicate Premises(L: Limits, id: Id, p: Payload, ca: Catalog) {
    CatalogOk(ca) && id in ca && ca[id] == p && p.Ok() && Room(L, p)
  }

  /** A send ends ... */
  lemma SendEvent(L: Limits, s: Sys, id: Id, p: Payload, k: nat, m: nat, ca: Catalog, cb: Catalog, env: Env)
    requires SenderAt(s.a, id, p, k, m, true) && OneWay(L, s.a, s.b, ca) && Premises(L, id, p, ca) && env.canSend
    ensures var evs := [Event(true, PumpReturns(id, 0, true), env)];
            var t := RunFrom(L, s, evs);
            && LegalFrom(L, s, evs, ca, cb) && NoTimer(evs) && OneWay(L, t.a, t.b, ca) && t.b == s.b
            && SenderAt(t.a, id, p, k + 1, m, k + 1 < Total(p) && k + 1 - m < L.window)
            && ChunkNo(id, p, k) in t.a.sent
  {
    assert ChunkNo(id, p, k) in s.a.sent;
    SenderSends(L, s.a, id, p, k, m, env);
    hide Step, OneWay, CatalogOk, Total, SenderAt, ChunkNo, LegalFrom, RunFrom;
    var sends := Event(true, PumpReturns(id, 0, true), env);
    FromOne(L, s, sends, ca, cb);
    FromIsSound(L, s, [sends], ca, cb);
  }

  /** ... and its chunk arrives. */
  lemma ChunkEvent(L: Limits, s: Sys, id: Id, p: Payload, k: nat, m: nat, ca: Catalog, cb: Catalog, env: Env)
    requires ReceiverAt(s.b, id, p, k, m) && OneWay(L, s.a, s.b, ca) && Premises(L, id, p, ca) && m <= k < Total(p)
    requires ChunkNo(id, p, k) in s.a.sent
    ensures var evs := [Event(false, Receive(ChunkNo(id, p, k)), env)];
            var t := RunFrom(L, s, evs);
            && LegalFrom(L, s, evs, ca, cb) && NoTimer(evs) && OneWay(L, t.a, t.b, ca) && t.a == s.a
            && ReceiverAt(t.b, id, p, k + 1, if Due(L, p, k, m) then k + 1 else m) && id in t.b.inc
            && (Due(L, p, k, m) ==> Ack(id, Held(t.b.inc[id].parts), false, false) in t.b.sent)
            && (k + 1 == Total(p) <==> t.b.inc[id].phase == Hashing)
  {
    ReceiverTakes(L, s.b, id, p, k, m, env);
    hide Step, OneWay, CatalogOk, Total, ReceiverAt, ChunkNo, LegalFrom, RunFrom, Due, Held;
    var arrives := Event(false, Receive(ChunkNo(id, p, k)), env);
    FromOne(L, s, arrives, ca, cb);
    FromIsSound(L, s, [arrives], ca, cb);
  }

  /** The ack that is due arrives. */
  lemma AckEventMoves(L: Limits, s: Sys, id: Id, p: Payload, k: nat, m: nat, moving: bool, ca: Catalog, cb: Catalog, env: Env)
      returns (evs: seq<Event>)
    requires 0 < k < Total(p) && SenderAt(s.a, id, p, k, m, moving) && ReceiverAt(s.b, id, p, k, k)
    requires OneWay(L, s.a, s.b, ca) && Premises(L, id, p, ca) && env.canSend
    requires id in s.b.inc && Ack(id, Held(s.b.inc[id].parts), false, false) in s.b.sent
    ensures LegalFrom(L, s, evs, ca, cb) && NoTimer(evs) && Stage(L, RunFrom(L, s, evs), id, p, k, k, ca)
  {
    var have := Held(s.b.inc[id].parts);
    HeardAll(s.b, id, p, k);
    SenderHears(L, s.a, id, p, k, m, moving, have, env);
    var heard := Event(true, Receive(Ack(id, have, false, false)), env);
    evs := [heard];
    hide Step, OneWay, CatalogOk, Total, ReceiverAt, SenderAt, Held, Decodes, LegalFrom, RunFrom, Stage;
    FromOne(L, s, heard, ca, cb);
    FromIsSound(L, s, [heard], ca, cb);
    FreshlyAcked(L, RunFrom(L, s, [heard]), id, p, k, ca);
  }

  lemma FreshlyAcked(L: Limits, t: Sys, id: Id, p: Payload, k: nat, ca: Catalog)
    requires OneWay(L, t.a, t.b, ca) && SenderAt(t.a, id, p, k, k, k < Total(p)) && ReceiverAt(t.b, id, p, k, k) && k < Total(p)
    ensures Stage(L, t, id, p, k, k, ca)
  {
    hide OneWay, SenderAt, ReceiverAt, Total;
  }

  /** One chunk on, with the ack it is due. */
  lemma StageMoves(L: Limits, s: Sys, id: Id, p: Payload, k: nat, m: nat, ca: Catalog, cb: Catalog, env: Env)
      returns (evs: seq<Event>, n: nat)
    requires Stage(L, s, id, p, k, m, ca) && Premises(L, id, p, ca) && k < Total(p) && env.canSend
    requires L.ackEvery <= L.window || Total(p) <= L.window
    ensures LegalFrom(L, s, evs, ca, cb) && NoTimer(evs) && Stage(L, RunFrom(L, s, evs), id, p, k + 1, n, ca)
  {
    hide OneWay, Premises, Total, ReceiverAt, SenderAt, Held, LegalFrom, RunFrom, NoTimer, ChunkNo;
    SendEvent(L, s, id, p, k, m, ca, cb, env);
    var sends, arrives := [Event(true, PumpReturns(id, 0, true), env)], [Event(false, Receive(ChunkNo(id, p, k)), env)];
    var s1 := RunFrom(L, s, sends);
    ChunkEvent(L, s1, id, p, k, m, ca, cb, env);
    var t := RunFrom(L, s1, arrives);
    FromConcat(L, s, sends, arrives, ca, cb);
    NoTimerJoins(sends, arrives);
    evs := sends + arrives;
    if Due(L, p, k, m) {
      n := k + 1;
      var heard := AckEventMoves(L, t, id, p, k + 1, m, k + 1 - m < L.window, ca, cb, env);
      FromConcat(L, s, evs, heard, ca, cb);
      NoTimerJoins(evs, heard);
      evs := evs + heard;
    } else {
      n := m;
      NotDue(L, p, k, m);
    }
  }

  /** Where no ack is due yet the window has room. */
  lemma NotDue(L: Limits, p: Payload, k: nat, m: nat)
    requires !Due(L, p, k, m) && m <= k < Total(p) && (L.ackEvery <= L.window || Total(p) <= L.window)
    ensures k + 1 < Total(p) ==> k + 1 - m < L.window && k + 1 - m < L.ackEvery
  {
    hide Total;
  }

  /** An ack that is due lists the chunks up to it. */
  lemma HeardAll(y: Engine, id: Id, p: Payload, k: nat)
    requires k > 0 && ReceiverAt(y, id, p, k, k) && p.Ok() && k < Total(p)
    ensures id in y.inc && Decodes(Ack(id, Held(y.inc[id].parts), false, false))
    ensures forall i: nat :: i in Held(y.inc[id].parts) <==> i < k
  {
    HonestAckDecodes(id, y.inc[id], false, p);
    HeldIsExact(y.inc[id].parts);
    assert |y.inc[id].parts| == Total(p);
    hide Held, Slice, ChunkCount;
  }

  lemma {:induction false} StagesRun(
      L: Limits, s: Sys, id: Id, p: Payload, k: nat, m: nat, ca: Catalog, cb: Catalog, env: Env)
      returns (evs: seq<Event>, n: nat)
    requires Stage(L, s, id, p, k, m, ca) && Premises(L, id, p, ca) && env.canSend
    requires L.ackEvery <= L.window || Total(p) <= L.window
    ensures LegalFrom(L, s, evs, ca, cb) && NoTimer(evs) && Stage(L, RunFrom(L, s, evs), id, p, Total(p), n, ca)
    decreases Total(p) - k
  {
    hide Stage, Premises, LegalFrom, RunFrom, NoTimer, Total;
    StageIsInside(L, s, id, p, k, m, ca);
    if k == Total(p) {
      evs, n := [], m;
      NothingRuns(L, s, ca, cb);
    } else {
      var first, o := StageMoves(L, s, id, p, k, m, ca, cb, env);
      var t := RunFrom(L, s, first);
      StageIsInside(L, t, id, p, k + 1, o, ca);
      var rest;
      rest, n := StagesRun(L, t, id, p, k + 1, o, ca, cb, env);
      FromConcat(L, s, first, rest, ca, cb);
      NoTimerJoins(first, rest);
      evs := first + rest;
    }
  }

  lemma StageIsInside(L: Limits, s: Sys, id: Id, p: Payload, k: nat, m: nat, ca: Catalog)
    requires Stage(L, s, id, p, k, m, ca)
    ensures m <= k <= Total(p)
  {
  }

  lemma NothingRuns(L: Limits, s: Sys, ca: Catalog, cb: Catalog)
    ensures LegalFrom(L, s, [], ca, cb) && NoTimer([]) && RunFrom(L, s, []) == s
  {
  }

  // ---- The exact condition ------------------------------------------------

  lemma StartedIsSound(L: Limits, id: Id, p: Payload, env: Env, ca: Catalog)
    requires Premises(L, id, p, ca)
    ensures OneWay(L, Started(L, id, p, env).a, Idle(), ca)
  {
    IdleIsSound(L, ca);
    hide OneWay, CatalogOk;
    var act := Begin(id, p, false);
    OneWayStep(L, Idle(), Idle(), act, env, ca);
  }

  lemma StartIsStage(L: Limits, id: Id, p: Payload, env: Env, ca: Catalog)
    requires Premises(L, id, p, ca) && env.canSend
    ensures Stage(L, Started(L, id, p, env), id, p, 0, 0, ca)
  {
    StartedIsSound(L, id, p, env, ca);
    FreshStartSends(L, Idle(), id, p, env);
    var x := Started(L, id, p, env).a;
    assert Sending(L, x, id, p, 0);
    assert UpTo(0) == {} == Between(0, 0);
    assert Total(p) >= 1 && FirstBurst(L, p) >= 1;
    hide OneWay, CatalogOk, Start, Slice, Upto;
  }

  lemma StartIsStuck(L: Limits, id: Id, p: Payload, env: Env, ca: Catalog)
    requires Premises(L, id, p, ca) && env.canSend
    ensures Stuck(L, Started(L, id, p, env), id, p, ca)
  {
    StartedIsSound(L, id, p, env, ca);
    FreshStartSends(L, Idle(), id, p, env);
    var x := Started(L, id, p, env).a;
    assert Sending(L, x, id, p, 0);
    assert UpTo(0) == {} && FirstBurst(L, p) >= 1;
    assert Few(L, x.out[id], 0);
    hide OneWay, CatalogOk, Start, Slice, Upto;
  }

  lemma FinalIsUntimed(id: Id, i: Incoming, env: Env)
    ensures NoTimer(FinalEvents(id, i, env))
  {
  }

  /** A transfer started between idle engines, on a link that loses nothing, can end without the timer of
      either side exactly when acks come often enough: at least one for every full window, or all the
      chunks fit one. Otherwise both wait: the sender for an ack, the receiver for chunks to ack. */
  lemma NoTimerNeededIff(L: Limits, id: Id, p: Payload, env: Env, ca: Catalog, cb: Catalog)
    requires Premises(L, id, p, ca) && env.canSend
    ensures var s := Started(L, id, p, env);
            (exists evs :: LegalFrom(L, s, evs, ca, cb) && NoTimer(evs) && Delivered(RunFrom(L, s, evs), id, ca))
            <==> L.ackEvery <= L.window || ChunkCount(|p.data|, CHUNK_BYTES) <= L.window
  {
    var s := Started(L, id, p, env);
    hide Started, LegalFrom, RunFrom, NoTimer, Delivered, Premises, Total;
    TotalIs(p);
    if L.ackEvery <= L.window || Total(p) <= L.window {
      var evs := EndsUntimed(L, id, p, env, ca, cb);
    } else {
      forall evs | LegalFrom(L, s, evs, ca, cb) && NoTimer(evs) ensures !Delivered(RunFrom(L, s, evs), id, ca) {
        NeverEnds(L, id, p, env, ca, cb, evs);
      }
    }
  }

  lemma TotalIs(p: Payload)
    ensures Total(p) == ChunkCount(|p.data|, CHUNK_BYTES)
  {
  }

  lemma EndsUntimed(L: Limits, id: Id, p: Payload, env: Env, ca: Catalog, cb: Catalog) returns (evs: seq<Event>)
    requires Premises(L, id, p, ca) && env.canSend && (L.ackEvery <= L.window || Total(p) <= L.window)
    ensures var s := Started(L, id, p, env);
            LegalFrom(L, s, evs, ca, cb) && NoTimer(evs) && Delivered(RunFrom(L, s, evs), id, ca)
  {
    var s := Started(L, id, p, env);
    StartIsStage(L, id, p, env, ca);
    hide Started, Stage, Premises, LegalFrom, RunFrom, NoTimer, Delivered, Total;
    var n;
    evs, n := StagesRun(L, s, id, p, 0, 0, ca, cb, env);
    var last := LastStage(L, RunFrom(L, s, evs), id, p, n, ca, cb, env);
    FromConcat(L, s, evs, last, ca, cb);
    NoTimerJoins(evs, last);
    evs := evs + last;
  }

  lemma NeverEnds(L: Limits, id: Id, p: Payload, env: Env, ca: Catalog, cb: Catalog, evs: seq<Event>)
    requires Premises(L, id, p, ca) && env.canSend && L.window < L.ackEvery && L.window < Total(p)
    requires LegalFrom(L, Started(L, id, p, env), evs, ca, cb) && NoTimer(evs)
    ensures !Delivered(RunFrom(L, Started(L, id, p, env), evs), id, ca)
  {
    StartIsStuck(L, id, p, env, ca);
    hide Started, Stuck, LegalFrom, RunFrom, NoTimer, Total, CatalogOk, Room, Payload.Ok;
    StaysStuck(L, Started(L, id, p, env), evs, id, p, ca, cb);
  }

  lemma LastStage(L: Limits, t: Sys, id: Id, p: Payload, n: nat, ca: Catalog, cb: Catalog, env: Env)
      returns (last: seq<Event>)
    requires Stage(L, t, id, p, Total(p), n, ca) && Premises(L, id, p, ca)
    ensures LegalFrom(L, t, last, ca, cb) && NoTimer(last) && Delivered(RunFrom(L, t, last), id, ca)
  {
    hide OneWay, CatalogOk, LegalFrom, RunFrom, FinalEvents, NoTimer, ReceiverAt, Underway, Total;
    last := FinalEvents(id, t.b.inc[id], env);
    FinalIsUntimed(id, t.b.inc[id], env);
    TransferEnds(L, t, id, ca, cb, env);
  }
}
