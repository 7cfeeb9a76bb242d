/** Progress of one transfer over a channel that has stopped losing frames: one resend ack
    makes the queue exactly the missing indices, and each round trip after it delivers a
    full window of them. */
module TransferProgress {
  import opened Wrappers
  import opened Chunking
  import opened TransferRecords
  import opened TransferSender
  import opened TransferHeld

  function HeldSet(i: Incoming): set<nat> { set k: nat | k < |i.parts| && i.parts[k].Some? }

  /** What the receiver still lacks. */
  function Missing(i: Incoming): seq<nat> { Unheld(|i.parts|, HeldSet(i), {}) }

  /** The indices a burst of the pump sends when every send succeeds at once. */
  function Burst(L: Limits, o: Outgoing, env: Env): seq<nat>
    decreases |o.queue| + |o.hands|
  {
    if o.hands == [] then [] else [o.hands[0]] + Burst(L, Resume(L, o, 0, true, env), env)
  }

  /** The sender once that burst is out. */
  function AfterBurst(L: Limits, o: Outgoing, env: Env): Outgoing
    decreases |o.queue| + |o.hands|
  {
    if o.hands == [] then o else AfterBurst(L, Resume(L, o, 0, true, env), env)
  }

  /** The receiver once every chunk of the burst has arrived (the decoder refuses an index
      beyond the total). */
  function TakeAll(i: Incoming, d: Bytes, idx: seq<nat>, now: int): Incoming
    decreases |idx|
  {
    if idx == [] then i
    else
      var r := if idx[0] < |i.parts| then StorePart(i, idx[0], Slice(d, CHUNK_BYTES, idx[0]), now) else i;
      TakeAll(r, d, idx[1..], now)
  }

  lemma {:induction false} UnheldIsDistinct(n: nat, acked: set<nat>, flying: set<nat>)
    ensures Distinct(Unheld(n, acked, flying))
  {
    if n > 0 {
      UnheldIsDistinct(n - 1, acked, flying);
      UnheldIsExact(n - 1, acked, flying);
    }
  }

  /** What the pump has yet to send of a queue: it passes over what is acknowledged or in flight. */
  function Todo(q: seq<nat>, skip: set<nat>): seq<nat> {
    if q == [] then [] else (if q[0] in skip then [] else [q[0]]) + Todo(q[1..], skip)
  }

  function Skipped(o: Outgoing): set<nat> { o.acked + o.inFlight.Keys }

  lemma {:induction false} TodoMembers(q: seq<nat>, skip: set<nat>)
    ensures forall x: nat :: x in Todo(q, skip) <==> x in q && x !in skip
    ensures Distinct(q) ==> Distinct(Todo(q, skip))
  {
    if q != [] {
      TodoMembers(q[1..], skip);
      if Distinct(q) {
        assert q[0] !in q[1..];
        var t := Todo(q[1..], skip);
        forall k | 0 <= k < |t| ensures t[k] != q[0] { assert t[k] in t; }
      }
    }
  }

  /** Skipping one more index of the queue leaves one fewer to send; an index not in it, none. */
  lemma {:induction false} TodoDrops(q: seq<nat>, skip: set<nat>, h: nat)
    requires Distinct(q)
    ensures h !in q || h in skip ==> Todo(q, skip + {h}) == Todo(q, skip)
    ensures h in q && h !in skip ==> |Todo(q, skip + {h})| == |Todo(q, skip)| - 1
  {
    if q != [] {
      assert q[0] !in q[1..];
      TodoDrops(q[1..], skip, h);
    }
  }

  /** What a burst of the pump leaves behind: the chunks it sent are in flight. */
  ghost predicate Flew(L: Limits, o: Outgoing, r: Outgoing, sent: seq<nat>) {
    && r.acked == o.acked && r.total == o.total && r.hands == [] && OutOk(L, r)
    && r.header == o.header && r.data == o.data
    && forall j: nat :: j in r.inFlight <==> j in o.inFlight || j in sent
  }

  function Sent(o: Outgoing, now: int): Outgoing
    requires o.queue != []
  {
    o.(queue := o.queue[1..], lastActivityAt := now, inFlight := o.inFlight[o.queue[0] := now])
  }

  /** One send of the burst: the pump takes the head of the queue and comes back for more. */
  lemma BurstStep(L: Limits, o: Outgoing, env: Env)
    requires env.canSend && OutOk(L, o) && o.hands == [] && o.status == Active
    requires o.queue != [] && |o.inFlight| < L.window && o.queue[0] !in Skipped(o)
    ensures Burst(L, Pump(L, o, true), env) == [o.queue[0]] + Burst(L, Pump(L, Sent(o, env.now), true), env)
    ensures AfterBurst(L, Pump(L, o, true), env) == AfterBurst(L, Pump(L, Sent(o, env.now), true), env)
  {
  }

  lemma SentKeeps(L: Limits, o: Outgoing, now: int)
    requires OutOk(L, o) && o.hands == [] && o.queue != [] && |o.inFlight| < L.window && o.queue[0] !in Skipped(o)
    ensures OutOk(L, Sent(o, now)) && |Sent(o, now).inFlight| == |o.inFlight| + 1
    ensures Skipped(Sent(o, now)) == Skipped(o) + {o.queue[0]}
  {
    SentFlight(o, now);
    var r := Sent(o, now);
    hide Sent;
    assert o.queue[0] in o.queue;
    forall x | x in r.inFlight ensures x < r.total {}
    forall k | 0 <= k < |r.queue| ensures r.queue[k] < r.total { assert r.queue[k] == o.queue[k + 1]; }
  }

  lemma SentFlight(o: Outgoing, now: int)
    requires o.queue != [] && o.queue[0] !in o.inFlight
    ensures var r := Sent(o, now);
            && r.inFlight.Keys == o.inFlight.Keys + {o.queue[0]} && |r.inFlight| == |o.inFlight| + 1
            && r == o.(queue := o.queue[1..], lastActivityAt := now, inFlight := r.inFlight)
  {
    var r := Sent(o, now);
    assert r.inFlight.Keys == o.inFlight.Keys + {o.queue[0]};
    assert |r.inFlight| == |r.inFlight.Keys| && |o.inFlight| == |o.inFlight.Keys|;
  }

  lemma SkipHead(L: Limits, o: Outgoing)
    requires OutOk(L, o) && o.hands == [] && o.status == Active && o.queue != [] && |o.inFlight| < L.window
    requires o.queue[0] in Skipped(o)
    ensures Pump(L, o, true) == Pump(L, o.(queue := o.queue[1..]), true) && OutOk(L, o.(queue := o.queue[1..]))
  {
  }

  lemma NoBurst(L: Limits, o: Outgoing, env: Env)
    requires OutOk(L, o) && o.hands == [] && (o.queue == [] || |o.inFlight| >= L.window)
    ensures Burst(L, Pump(L, o, true), env) == [] && Flew(L, o, AfterBurst(L, Pump(L, o, true), env), [])
  {
  }

  /** The burst sends what is to be sent, in order, as far as the window reaches, and leaves exactly
      that in flight besides what was there before. */
  lemma {:induction false} BurstIsTodo(L: Limits, o: Outgoing, env: Env, n: nat)
    requires env.canSend && OutOk(L, o) && o.hands == [] && o.status == Active && Distinct(o.queue)
    requires n == Min(L.window - |o.inFlight|, |Todo(o.queue, Skipped(o))|)
    ensures Burst(L, Pump(L, o, true), env) == Todo(o.queue, Skipped(o))[..n]
    ensures Flew(L, o, AfterBurst(L, Pump(L, o, true), env), Todo(o.queue, Skipped(o))[..n])
    decreases |o.queue|
  {
    hide Burst, AfterBurst, Pump, OutOk, Skipped, Flew;
    if o.queue == [] || |o.inFlight| >= L.window {
      NoBurst(L, o, env);
    } else if o.queue[0] in Skipped(o) {
      SkipHead(L, o);
      SameSkipped(o);
      var o' := o.(queue := o.queue[1..]);
      BurstIsTodo(L, o', env, n);
      FlewPast(L, o, o', AfterBurst(L, Pump(L, o', true), env), Todo(o'.queue, Skipped(o'))[..n]);
    } else {
      BurstStep(L, o, env);
      SentKeeps(L, o, env.now);
      TodoDrops(o.queue[1..], Skipped(o), o.queue[0]);
      var o' := Sent(o, env.now);
      BurstIsTodo(L, o', env, n - 1);
      var sent := Todo(o'.queue, Skipped(o'))[..n - 1];
      FlewToo(L, o, env.now, AfterBurst(L, Pump(L, o', true), env), sent);
      assert Todo(o.queue, Skipped(o))[..n] == [o.queue[0]] + Todo(o.queue[1..], Skipped(o))[..n - 1];
    }
  }

  lemma FlewPast(L: Limits, o: Outgoing, o': Outgoing, r: Outgoing, sent: seq<nat>)
    requires o' == o.(queue := o'.queue) && Flew(L, o', r, sent)
    ensures Flew(L, o, r, sent)
  {
    hide OutOk;
  }

  lemma FlewToo(L: Limits, o: Outgoing, now: int, r: Outgoing, sent: seq<nat>)
    requires o.queue != [] && Flew(L, Sent(o, now), r, sent)
    ensures Flew(L, o, r, [o.queue[0]] + sent)
  {
    hide OutOk;
    assert forall j: nat :: j in [o.queue[0]] + sent <==> j == o.queue[0] || j in sent;
  }

  lemma SameSkipped(o: Outgoing)
    requires o.queue != []
    ensures Skipped(o.(queue := o.queue[1..])) == Skipped(o)
  {
  }

  /** Distinct missing parts that arrive are all stored and counted. */
  lemma {:induction false} TakeAllStores(i: Incoming, d: Bytes, idx: seq<nat>, now: int)
    requires Below(idx, |i.parts|) && Distinct(idx) && |i.parts| == i.total
    requires i.phase == Collecting && i.received + |idx| <= i.total && i.received < i.total
    requires forall k :: 0 <= k < |idx| ==> i.parts[idx[k]].None?
    ensures var r := TakeAll(i, d, idx, now);
            && r.received == i.received + |idx|
            && |r.parts| == |i.parts| && r.total == i.total
            && (r.phase == if r.received == r.total then Hashing else Collecting)
            && (forall j: nat :: j < |i.parts| ==>
                  r.parts[j] == if j in idx then Some(Slice(d, CHUNK_BYTES, j)) else i.parts[j])
    decreases |idx|
  {
    if idx != [] {
      var r := StorePart(i, idx[0], Slice(d, CHUNK_BYTES, idx[0]), now);
      assert idx == [idx[0]] + idx[1..];
      if |idx| > 1 {
        TakeAllStores(r, d, idx[1..], now);
      }
    }
  }

  // ---- Rounds -------------------------------------------------------------

  /** The two ends of one transfer while it is under way, a pump possibly suspended at a send. Every
      chunk in flight that the receiver lacks was sent at least `stallMs` ago. */
  ghost predicate UnderWay(L: Limits, o: Outgoing, i: Incoming, now: int) {
    && OutOk(L, o)
    && |i.parts| == i.total == o.total
    && i.received == |Held(i.parts)| < i.total
    && i.phase == Collecting
    && o.acked <= HeldSet(i)
    && (forall j :: j in o.inFlight && j !in HeldSet(i) ==> now - o.inFlight[j] >= L.stallMs)
  }

  /** One lossless round: the receiver's resend ack arrives, a suspended send succeeds, the sender's
      burst goes out, every chunk of it arrives. */
  function SenderRound(L: Limits, o: Outgoing, i: Incoming, env: Env): Outgoing {
    AfterBurst(L, OutStep(L, o, Acked(Held(i.parts), true), env), env)
  }

  function RoundBurst(L: Limits, o: Outgoing, i: Incoming, env: Env): seq<nat> {
    Burst(L, OutStep(L, o, Acked(Held(i.parts), true), env), env)
  }

  /** One resend ack makes the queue exactly the missing indices. */
  lemma ResendAckQueuesMissing(L: Limits, o: Outgoing, i: Incoming, now: int)
    requires UnderWay(L, o, i, now)
    ensures var o1 := AbsorbAck(L, o, Held(i.parts), true, now);
            && o1.queue == Missing(i) && Distinct(o1.queue)
            && |o1.queue| == i.total - i.received
            && o1.inFlight == map[] && o1.acked == HeldSet(i) && o1.status == Active && o1.hands == o.hands
  {
    var o1 := AbsorbAck(L, o, Held(i.parts), true, now);
    HeldIsExact(i.parts);
    assert o1.acked == HeldSet(i);
    assert o1.inFlight.Keys == {};
    assert o1.inFlight == map[];
    UnheldIsDistinct(o.total, HeldSet(i), {});
    assert |Held(i.parts)| + |Unheld(|i.parts|, HeldSet(i), {})| == |i.parts|;
  }

  /** The sender once the ack is in and a suspended send, if any, has succeeded. */
  function Ready(L: Limits, o: Outgoing, i: Incoming, now: int): Outgoing {
    var o1 := AbsorbAck(L, o, Held(i.parts), true, now);
    if o.hands == [] then o1
    else
      o1.(hands := [], pumping := false, lastActivityAt := now,
          inFlight := if o.hands[0] in o1.acked then o1.inFlight else o1.inFlight[o.hands[0] := now])
  }

  /** The burst is the chunk in hand, if any, and then what the ready sender pumps. */
  lemma RoundIsHandThenPump(L: Limits, o: Outgoing, i: Incoming, env: Env)
    requires env.canSend && UnderWay(L, o, i, env.now)
    ensures RoundBurst(L, o, i, env) == o.hands + Burst(L, Pump(L, Ready(L, o, i, env.now), true), env)
    ensures SenderRound(L, o, i, env) == AfterBurst(L, Pump(L, Ready(L, o, i, env.now), true), env)
  {
    var o1 := AbsorbAck(L, o, Held(i.parts), true, env.now);
    hide AbsorbAck, PumpLoop, Held;
    if o.hands != [] {
      assert o.hands == [o.hands[0]] && o.hands[..0] + o.hands[1..] == [];
      HandsStay(L, o, Held(i.parts), env.now);
      assert Resume(L, o1, 0, true, env) == Pump(L, Ready(L, o, i, env.now), true);
    } else {
      HandsStay(L, o, Held(i.parts), env.now);
    }
  }

  lemma HandsStay(L: Limits, o: Outgoing, have: seq<nat>, now: int)
    ensures var o1 := AbsorbAck(L, o, have, true, now); o1.hands == o.hands && o1.pumping == o.pumping
  {
  }

  /** The missing index a suspended pump has in hand, if any. */
  function InHand(o: Outgoing, i: Incoming): set<nat> { if o.hands == [] then {} else {o.hands[0]} - HeldSet(i) }

  lemma ReadyIs(L: Limits, o: Outgoing, i: Incoming, now: int)
    requires UnderWay(L, o, i, now)
    ensures var r := Ready(L, o, i, now);
            && OutOk(L, r) && r.hands == [] && r.status == Active && r.queue == Missing(i) && Distinct(r.queue)
            && r.inFlight.Keys == InHand(o, i) && r.acked == HeldSet(i) && r.total == o.total
            && r.header == o.header && r.data == o.data
  {
    ResendAckQueuesMissing(L, o, i, now);
    AbsorbKeeps(L, o, Held(i.parts), true, now);
    hide Missing, HeldSet;
  }

  /** The parts a round brings that the receiver lacked: the one in hand first, then the missing
      ones in order, as far as the window reaches. */
  function News(L: Limits, o: Outgoing, i: Incoming): seq<nat> {
    var todo := Todo(Missing(i), HeldSet(i) + InHand(o, i));
    (if InHand(o, i) == {} then [] else [o.hands[0]]) + todo[..Max(0, Min(L.window - |InHand(o, i)|, |todo|))]
  }

  /** What the sender sends in a round: the news, after a chunk in hand that is not one of them. */
  lemma RoundSends(L: Limits, o: Outgoing, i: Incoming, env: Env)
    requires env.canSend && UnderWay(L, o, i, env.now)
    ensures RoundBurst(L, o, i, env) == (if InHand(o, i) == {} then o.hands else []) + News(L, o, i)
    ensures Flew(L, Ready(L, o, i, env.now), SenderRound(L, o, i, env), News(L, o, i))
  {
    hide Burst, AfterBurst, Pump, OutOk, Ready, RoundBurst, SenderRound, Missing, HeldSet, Todo, UnderWay, Flew, Distinct;
    var r := Ready(L, o, i, env.now);
    ReadyIs(L, o, i, env.now);
    RoundIsHandThenPump(L, o, i, env);
    assert |r.inFlight| == |r.inFlight.Keys| == |InHand(o, i)|;
    assert Skipped(r) == HeldSet(i) + InHand(o, i);
    FlightFits(L, r);
    var todo := Todo(Missing(i), HeldSet(i) + InHand(o, i));
    var n := Min(L.window - |InHand(o, i)|, |todo|);
    BurstIsTodo(L, r, env, n);
    assert n >= 0;
    AtMostOneHand(L, o, i, env.now);
    if InHand(o, i) != {} {
      assert News(L, o, i) == [o.hands[0]] + todo[..n];
      FlewMore(L, r, SenderRound(L, o, i, env), todo[..n], o.hands[0]);
    } else {
      assert News(L, o, i) == todo[..n];
    }
  }

  lemma FlightFits(L: Limits, r: Outgoing)
    requires OutOk(L, r)
    ensures |r.inFlight| <= L.window
  {
  }

  lemma AtMostOneHand(L: Limits, o: Outgoing, i: Incoming, now: int)
    requires UnderWay(L, o, i, now)
    ensures o.hands == [] || o.hands == [o.hands[0]]
  {
  }

  /** What was in flight before may be counted among the chunks sent. */
  lemma FlewMore(L: Limits, o: Outgoing, r: Outgoing, sent: seq<nat>, h: nat)
    requires Flew(L, o, r, sent) && h in o.inFlight
    ensures Flew(L, o, r, [h] + sent)
  {
    hide OutOk;
  }

  /** They are distinct, missing, and as many as the window or all that is missing. */
  lemma NewsAre(L: Limits, o: Outgoing, i: Incoming, now: int)
    requires UnderWay(L, o, i, now)
    ensures var b := News(L, o, i);
            && Distinct(b) && Below(b, |i.parts|) && |b| == Min(L.window, i.total - i.received)
            && forall x: nat :: x in b ==> x < |i.parts| && i.parts[x].None?
  {
    hide Todo, Missing, HeldSet, UnderWay, InHand, Distinct, News;
    MissingAre(L, o, i, now);
    if InHand(o, i) != {} { NewsFromHand(L, o, i, now); } else { NewsFromQueue(L, o, i, now); }
    var b := News(L, o, i);
    forall k | 0 <= k < |b| ensures b[k] < |i.parts| { assert b[k] in b; }
  }

  lemma NewsFromQueue(L: Limits, o: Outgoing, i: Incoming, now: int)
    requires UnderWay(L, o, i, now) && InHand(o, i) == {}
    ensures News(L, o, i) == Missing(i)[..Min(L.window, |Missing(i)|)]
    ensures Distinct(News(L, o, i)) && forall x: nat :: x in News(L, o, i) ==> x in Missing(i)
  {
    hide Todo, Missing, HeldSet, UnderWay;
    MissingAre(L, o, i, now);
    AllTodo(Missing(i), HeldSet(i));
    assert HeldSet(i) + InHand(o, i) == HeldSet(i);
  }

  lemma NewsFromHand(L: Limits, o: Outgoing, i: Incoming, now: int)
    requires UnderWay(L, o, i, now) && InHand(o, i) != {}
    ensures Distinct(News(L, o, i)) && |News(L, o, i)| == Min(L.window, |Missing(i)|)
    ensures forall x: nat :: x in News(L, o, i) ==> x in Missing(i)
  {
    hide Todo, Missing, HeldSet, UnderWay, News, Distinct;
    MissingAre(L, o, i, now);
    assert InHand(o, i) == {o.hands[0]};
    AllTodo(Missing(i), HeldSet(i));
    TodoDrops(Missing(i), HeldSet(i), o.hands[0]);
    TodoMembers(Missing(i), HeldSet(i) + InHand(o, i));
    NewsWithHand(L, o, i);
  }

  lemma MissingAre(L: Limits, o: Outgoing, i: Incoming, now: int)
    requires UnderWay(L, o, i, now)
    ensures var m := Missing(i);
            && Distinct(m) && |m| == i.total - i.received
            && forall x: nat :: x in m <==> x < |i.parts| && i.parts[x].None?
    ensures forall k :: 0 <= k < |Missing(i)| ==> Missing(i)[k] !in HeldSet(i)
    ensures o.hands != [] ==> o.hands[0] < |i.parts| && |o.hands| == 1 && 1 <= L.window
    ensures o.hands != [] ==> (o.hands[0] in HeldSet(i) <==> i.parts[o.hands[0]].Some?)
    ensures o.hands != [] ==> (o.hands[0] in Missing(i) <==> o.hands[0] !in HeldSet(i))
  {
    ResendAckQueuesMissing(L, o, i, now);
    UnheldIsExact(|i.parts|, HeldSet(i), {});
    hide AbsorbAck;
  }

  lemma NewsWithHand(L: Limits, o: Outgoing, i: Incoming)
    requires o.hands != [] && InHand(o, i) == {o.hands[0]} && L.window >= 1
    requires var t := Todo(Missing(i), HeldSet(i) + InHand(o, i)); Distinct(t) && o.hands[0] !in t
    ensures Distinct(News(L, o, i))
    ensures |News(L, o, i)| == 1 + Min(L.window - 1, |Todo(Missing(i), HeldSet(i) + InHand(o, i))|)
    ensures forall x: nat :: x in News(L, o, i) ==> x == o.hands[0] || x in Todo(Missing(i), HeldSet(i) + InHand(o, i))
  {
    hide Todo, Missing, HeldSet;
  }

  lemma {:induction false} AllTodo(q: seq<nat>, skip: set<nat>)
    requires forall k :: 0 <= k < |q| ==> q[k] !in skip
    ensures Todo(q, skip) == q
  {
    if q != [] { AllTodo(q[1..], skip); }
  }

  /** A part that is already held changes nothing. */
  lemma HeldPartIgnored(i: Incoming, d: Bytes, h: nat, idx: seq<nat>, now: int)
    requires h < |i.parts| && i.parts[h].Some?
    ensures TakeAll(i, d, [h] + idx, now) == TakeAll(i, d, idx, now)
  {
    assert ([h] + idx)[1..] == idx;
  }

  /** What the receiver holds when a round is over. */
  lemma RoundLands(L: Limits, o: Outgoing, i: Incoming, d: Bytes, env: Env)
    requires env.canSend && UnderWay(L, o, i, env.now)
    ensures TakeAll(i, d, RoundBurst(L, o, i, env), env.now) == TakeAll(i, d, News(L, o, i), env.now)
    ensures var i' := TakeAll(i, d, News(L, o, i), env.now);
            && i'.received == |Held(i'.parts)| == i.received + Min(L.window, i.total - i.received)
            && |i'.parts| == i'.total == i.total
            && (i'.phase == if i'.received == i'.total then Hashing else Collecting)
            && (i'.received == i'.total ==> AllHeld(i'))
            && HeldSet(i') == HeldSet(i) + (set j | j in News(L, o, i))
  {
    hide RoundBurst, News, TakeAll, SenderRound, Ready, Flew, AllHeld, OutOk;
    RoundSends(L, o, i, env);
    NewsAre(L, o, i, env.now);
    MissingAre(L, o, i, env.now);
    assert [] + News(L, o, i) == News(L, o, i);
    if InHand(o, i) == {} && o.hands != [] {
      assert o.hands == [o.hands[0]] && o.hands[0] !in InHand(o, i);
      HeldPartIgnored(i, d, o.hands[0], News(L, o, i), env.now);
    }
    var b := News(L, o, i);
    forall k | 0 <= k < |b| ensures i.parts[b[k]].None? { assert b[k] in b; }
    TakeRound(i, d, b, env.now);
  }

  /** A lossless round delivers a full window of what was missing, or all of it, and ends
      in a state from which the next round can start at any later time. */
  lemma RoundDelivers(L: Limits, o: Outgoing, i: Incoming, d: Bytes, env: Env, later: int)
    requires env.canSend && UnderWay(L, o, i, env.now)
    ensures var i' := TakeAll(i, d, RoundBurst(L, o, i, env), env.now);
            && i'.received == i.received + Min(L.window, i.total - i.received)
            && |i'.parts| == i'.total == i.total
            && (i'.received == i'.total ==> i'.phase == Hashing && AllHeld(i'))
            && (i'.received < i'.total ==> UnderWay(L, SenderRound(L, o, i, env), i', later))
  {
    hide RoundBurst, News, TakeAll, SenderRound, Ready, OutOk, AllHeld, HeldSet, Distinct;
    RoundSends(L, o, i, env);
    ReadyIs(L, o, i, env.now);
    NewsAre(L, o, i, env.now);
    RoundLands(L, o, i, d, env);
    var i' := TakeAll(i, d, News(L, o, i), env.now);
    HandAmongNews(L, o, i);
    assert forall j :: j in SenderRound(L, o, i, env).inFlight ==> j in HeldSet(i');
  }

  lemma HandAmongNews(L: Limits, o: Outgoing, i: Incoming)
    ensures forall j :: j in InHand(o, i) ==> j in News(L, o, i)
  {
    hide Todo, Missing, HeldSet;
  }

  ghost predicate AllHeld(i: Incoming) { forall j :: 0 <= j < |i.parts| ==> i.parts[j].Some? }

  /** The receiver's half of a round. */
  lemma TakeRound(i: Incoming, d: Bytes, idx: seq<nat>, now: int)
    requires Below(idx, |i.parts|) && Distinct(idx) && |i.parts| == i.total
    requires i.phase == Collecting && i.received == |Held(i.parts)| < i.total && i.received + |idx| <= i.total
    requires forall k :: 0 <= k < |idx| ==> i.parts[idx[k]].None?
    ensures var r := TakeAll(i, d, idx, now);
            && r.received == |Held(r.parts)| == i.received + |idx|
            && |r.parts| == r.total == i.total
            && (r.phase == if r.received == r.total then Hashing else Collecting)
            && (r.received == r.total ==> AllHeld(r))
            && HeldSet(r) == HeldSet(i) + (set j | j in idx)
  {
    TakeAllStores(i, d, idx, now);
    CountHeld(i.parts, TakeAll(i, d, idx, now).parts, idx);
    FullIsAllHeld(TakeAll(i, d, idx, now).parts);
  }

  /** The receiver after n lossless rounds at the given times. */
  function ReceiverAfter(L: Limits, o: Outgoing, i: Incoming, d: Bytes, clock: seq<int>): Incoming
    decreases |clock|
  {
    if clock == [] || i.received >= i.total then i else
      var env := Env(clock[0], true);
      ReceiverAfter(L, SenderRound(L, o, i, env), TakeAll(i, d, RoundBurst(L, o, i, env), env.now), d, clock[1..])
  }

  /** What n windows carry. */
  function Capacity(w: nat, n: nat): nat { if n == 0 then 0 else w + Capacity(w, n - 1) }

  lemma {:induction false} CapacityIsProduct(w: nat, n: nat)
    ensures Capacity(w, n) == w * n
  {
    if n > 0 { CapacityIsProduct(w, n - 1); }
  }

  lemma {:induction false} RoundsCarry(L: Limits, o: Outgoing, i: Incoming, d: Bytes, clock: seq<int>)
    requires clock != [] ==> UnderWay(L, o, i, clock[0])
    requires i.received < i.total
    ensures var r := ReceiverAfter(L, o, i, d, clock);
            && r.received == Min(i.total, i.received + Capacity(L.window, |clock|))
            && r.total == i.total
            && (r.received == r.total ==> |r.parts| == r.total && r.phase == Hashing && AllHeld(r))
    decreases |clock|
  {
    hide RoundBurst, SenderRound, TakeAll, UnderWay, AllHeld;
    if clock != [] {
      var env := Env(clock[0], true);
      RoundDelivers(L, o, i, d, env, if |clock| > 1 then clock[1] else 0);
      var i' := TakeAll(i, d, RoundBurst(L, o, i, env), env.now);
      if i'.received < i'.total {
        RoundsCarry(L, SenderRound(L, o, i, env), i', d, clock[1..]);
      }
    }
  }

  /** ceil(missing / window) lossless rounds complete the transfer, and no fewer do. */
  lemma RoundsComplete(L: Limits, o: Outgoing, i: Incoming, d: Bytes, clock: seq<int>)
    requires clock != [] && UnderWay(L, o, i, clock[0])
    ensures var r := ReceiverAfter(L, o, i, d, clock);
            && (r.received == i.total <==> L.window * |clock| >= i.total - i.received)
            && (r.received == i.total ==> r.phase == Hashing && |r.parts| == i.total && AllHeld(r))
  {
    hide RoundBurst, SenderRound, TakeAll, AllHeld, ReceiverAfter;
    RoundsCarry(L, o, i, d, clock);
    CapacityIsProduct(L.window, |clock|);
  }
}
