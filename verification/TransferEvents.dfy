/** What each event means to the two ends: when they ask each other, when they stop, what a refusal
    does, and what a chunk or an ack changes. */
module TransferEvents {
  import opened Wrappers
  import opened Chunking
  import opened TransferRecords
  import opened TransferHeld
  import opened TransferProtocol

  // ---- When the two ends ask ----------------------------------------------

  /** The patience of the a-th attempt: it doubles, but not beyond six stall limits. */
  function PatienceAt(L: Limits, a: nat): nat {
    if a == 0 then L.stallMs else if a == 1 then 2 * L.stallMs else if a == 2 then 4 * L.stallMs else 6 * L.stallMs
  }

  lemma BackoffIs(L: Limits, a: nat)
    ensures Backoff(L, a) == PatienceAt(L, a)
  {
    assert Pow2(0) == 1 && Pow2(1) == 2 && Pow2(2) == 4;
    if a > 2 { PowerPasses(a); }
  }

  lemma {:induction false} PowerPasses(a: nat)
    requires a > 2
    ensures Pow2(a) >= 6
  {
    assert Pow2(1) == 2 && Pow2(2) == 4;
    if a > 3 { PowerPasses(a - 1); }
  }

  /** There is something to send, and room in the window. */
  predicate CanMove(L: Limits, o: Outgoing) { o.queue != [] && |o.inFlight| < L.window }

  /** The sender asks what the peer has exactly when the link is usable and: it resumes a transfer, the
      connection is back or the user retries, or the timer finds the record waiting, or finds it with nothing it
      may send and its patience over, and not for the last time. */
  lemma SenderAsksIff(L: Limits, id: Id, o: Outgoing, ev: OutEvent, env: Env)
    ensures Query(id) in OutMsgs(L, id, o, ev, env) <==>
            && env.canSend
            && (|| ev.Offered? || ev.Connected? || ev.Retried?
                || (ev.Ticked? && !o.pumping && o.status == Waiting)
                || (ev.Ticked? && !o.pumping && o.status == Active && !CanMove(L, o)
                    && env.now - o.lastActivityAt >= PatienceAt(L, o.attempts) && o.attempts < L.maxAttempts))
  {
    BackoffIs(L, o.attempts);
    hide OutStep, Backoff, PatienceAt;
  }

  /** What becomes of a record that the connection or the user revives: it starts afresh, active or, if the
      link is not usable, waiting, with nothing in flight; what is acknowledged and queued stays. */
  lemma RevivedIs(L: Limits, o: Outgoing, ev: OutEvent, env: Env)
    requires ev.Connected? || ev.Retried?
    ensures OutStep(L, o, ev, env)
            == o.(attempts := 0, inFlight := map[], lastActivityAt := env.now,
                  status := if env.canSend then Active else Waiting)
  {
  }

  /** The timer at a sending record. */
  lemma TickedIs(L: Limits, o: Outgoing, env: Env)
    ensures var r := OutStep(L, o, Ticked, env);
            var idle := env.now - o.lastActivityAt >= PatienceAt(L, o.attempts);
            && (o.pumping || o.status == Failed ==> r == o)
            && (!o.pumping && o.status == Waiting ==>
                  r == if env.canSend then o.(status := Active, lastActivityAt := env.now) else o)
            && (!o.pumping && o.status == Active && !CanMove(L, o) ==>
                  r == if !idle then o
                       else if o.attempts >= L.maxAttempts
                       then o.(attempts := o.attempts + 1, status := Failed, inFlight := map[])
                       else o.(attempts := o.attempts + 1, lastActivityAt := env.now,
                               status := if env.canSend then Active else Waiting))
            && (!o.pumping && o.status == Active && CanMove(L, o) && o.queue[0] !in o.acked && o.queue[0] !in o.inFlight ==>
                  r == if env.canSend then o.(pumping := true, queue := o.queue[1..], hands := o.hands + [o.queue[0]])
                       else o.(status := Waiting))
  {
    BackoffIs(L, o.attempts);
    hide Backoff, PatienceAt;
  }

  /** A failed record with no send under way stays failed and sends nothing, until a resend ack, a connection
      or the user revives it. */
  lemma FailedIsSilent(L: Limits, id: Id, o: Outgoing, ev: OutEvent, env: Env)
    requires o.status == Failed && o.hands == []
    requires !ev.Connected? && !ev.Retried? && !ev.Offered? && !(ev.Acked? && ev.resend)
    ensures OutStep(L, o, ev, env).status == Failed && OutStep(L, o, ev, env).hands == []
    ensures OutMsgs(L, id, o, ev, env) == {}
  {
    hide Known, Unheld;
  }

  /** A lost link leaves every record that has not failed waiting with nothing in flight. */
  lemma DisconnectedIs(L: Limits, o: Outgoing, env: Env)
    ensures OutStep(L, o, Disconnected, env) == if o.status == Failed then o else o.(status := Waiting, inFlight := map[])
  {
  }

  /** The receiver asks for what it misses exactly while it collects, and: it is queried, the user retries, the
      connection is back and usable, or the timer finds it not failed, its patience over and not for the last time. */
  lemma ReceiverAsksIff(L: Limits, i: Incoming, ev: InEvent, env: Env)
    ensures AsksResend(L, i, ev, env) <==>
            && i.phase == Collecting
            && (|| ev.PeerAsked? || ev.UserRetry? || (ev.LinkUp? && env.canSend)
                || (ev.Tick? && i.status != Failed && env.canSend && i.attempts < L.maxAttempts
                    && env.now - i.lastActivityAt >= PatienceAt(L, i.attempts)))
  {
    BackoffIs(L, i.attempts);
    hide Backoff, PatienceAt;
  }

  /** What an event other than a chunk does to a receiving record. */
  lemma ReceiverIs(L: Limits, i: Incoming, ev: InEvent, env: Env)
    ensures var r := InStep(L, i, ev, env);
            var late := env.now - i.lastActivityAt >= PatienceAt(L, i.attempts);
            && (i.phase != Collecting && !ev.LinkDown? ==> r == Some(i))
            && (i.phase == Collecting && (ev.PeerAsked? || ev.LinkUp? || ev.UserRetry?) ==>
                  r == Some(i.(attempts := 0, status := Active, lastActivityAt := env.now)))
            && (ev.LinkDown? ==> r == Some(i.(status := if i.status == Failed then Failed else Waiting)))
            && (i.phase == Collecting && ev.Tick? && i.status == Failed ==>
                  r == if env.now - i.lastActivityAt > L.failedTtlMs then None else Some(i))
            && (i.phase == Collecting && ev.Tick? && i.status != Failed ==>
                  r == Some(if !late then i
                            else if !env.canSend then i.(lastActivityAt := env.now, status := Waiting)
                            else if i.attempts >= L.maxAttempts
                            then i.(lastActivityAt := env.now, attempts := i.attempts + 1, status := Failed)
                            else i.(lastActivityAt := env.now, attempts := i.attempts + 1, status := Active)))
  {
    BackoffIs(L, i.attempts);
    hide Backoff, PatienceAt;
  }

  // ---- Acks ---------------------------------------------------------------

  /** What an ack changes: the indices it lists are acknowledged and no longer in flight, the peer has been
      heard, and news gives back all attempts. A resend ack also forgets what was sent a stall limit ago. */
  lemma AckIs(L: Limits, o: Outgoing, have: seq<nat>, resend: bool, env: Env)
    ensures var r := OutStep(L, o, Acked(have, resend), env);
            && (forall k :: k in r.acked <==> k in o.acked || (k in have && k < o.total))
            && (forall k :: k in r.inFlight <==> k in o.inFlight && !(k in have && k < o.total)
                                                 && (resend ==> env.now - o.inFlight[k] < L.stallMs))
            && (forall k :: k in r.inFlight ==> r.inFlight[k] == o.inFlight[k])
            && r.lastActivityAt == env.now
            && r.attempts == if exists k :: k in have && k < o.total && k !in o.acked then 0 else o.attempts
  {
    var o1 := AbsorbAck(L, o, have, resend, env.now);
    PumpTouches(L, o1, env.canSend);
    GrowsIff(o.acked, Known(have, o.total));
    assert forall k :: k in Known(have, o.total) <==> k in have && k < o.total;
    hide Pump, Unheld;
  }

  lemma GrowsIff(a: set<nat>, b: set<nat>)
    ensures |a + b| > |a| <==> exists k :: k in b && k !in a
  {
    if k :| k in b && k !in a {
      assert a + b == a + (b - a) && |a + b| == |a| + |b - a|;
      assert k in b - a;
    } else {
      assert a + b == a;
    }
  }

  /** A done ack ends the transfer it is for, confirmed; an ack of a transfer that is not there is answered with
      a cancel if it asks for more, and else passed over. */
  lemma AckEnds(L: Limits, e: Engine, a: Msg, env: Env)
    requires a.Ack? && Decodes(a) && (a.done || a.id !in e.out)
    ensures Step(L, e, Receive(a), env)
            == if a.id in e.out then e.(out := e.out - {a.id}, confirmed := e.confirmed + {a.id})
               else if a.resend && !a.done then e.(sent := e.sent + {Cancel(a.id)}) else e
  {
    hide OutStep, OutMsgs;
  }

  /** The pump changes neither what is acknowledged nor what is in flight. */
  lemma PumpTouches(L: Limits, o: Outgoing, canSend: bool)
    ensures var r := Pump(L, o, canSend);
            r.acked == o.acked && r.inFlight == o.inFlight && r.attempts == o.attempts && r.lastActivityAt == o.lastActivityAt
  {
    if !o.pumping { LoopTouches(L, o.(pumping := true), canSend); }
  }

  lemma {:induction false} LoopTouches(L: Limits, o: Outgoing, canSend: bool)
    ensures var r := PumpLoop(L, o, canSend);
            r.acked == o.acked && r.inFlight == o.inFlight && r.attempts == o.attempts && r.lastActivityAt == o.lastActivityAt
    decreases |o.queue|
  {
    if o.status == Active && o.queue != [] && |o.inFlight| < L.window && (o.queue[0] in o.acked || o.queue[0] in o.inFlight) {
      LoopTouches(L, o.(queue := o.queue[1..]), canSend);
    }
  }

  /** An ack lists the parts held, in ascending order. */
  lemma {:induction false} AckLists(parts: seq<Option<Bytes>>)
    ensures forall k: nat :: k in Held(parts) <==> k < |parts| && parts[k].Some?
    ensures forall j, k :: 0 <= j < k < |Held(parts)| ==> Held(parts)[j] < Held(parts)[k]
    decreases |parts|
  {
    HeldIsExact(parts);
    if parts != [] {
      var n := |parts| - 1;
      AckLists(parts[..n]);
      assert forall j :: 0 <= j < |Held(parts[..n])| ==> Held(parts[..n])[j] in Held(parts[..n]);
    }
  }

  // ---- Chunks -------------------------------------------------------------

  /** The chunk belongs to the record: all of the header but the name, which the digest does not cover, and
      the number of chunks agree. */
  predicate Belongs(i: Incoming, c: Msg)
    requires c.Chunk?
  {
    && i.header.kind == c.header.kind && i.header.size == c.header.size && i.header.sha256 == c.header.sha256
    && i.header.mime == c.header.mime && i.header.ts == c.header.ts && i.total == c.total
  }

  /** A chunk of a known transfer is stored exactly if it belongs to it, the record still collects, and the part
      is missing; otherwise nothing changes. Stored, it is one part more and nothing else, the sender has been
      heard, and the last part starts the digest. An ack that lists what is held goes out with every
      `ackEvery`-th part but the last. */
  lemma KnownChunkIs(L: Limits, e: Engine, c: Msg, env: Env)
    requires c.Chunk? && Decodes(c) && c.id in e.inc && |e.inc[c.id].parts| == e.inc[c.id].total
    ensures var i, r := e.inc[c.id], Step(L, e, Receive(c), env);
            var taken := Belongs(i, c) && i.phase == Collecting && i.parts[c.index].None?;
            var last := i.received + 1 == i.total;
            var ack := !last && i.sinceAck + 1 >= L.ackEvery;
            && (!taken ==> r == e)
            && (taken ==>
                  && r == e.(inc := e.inc[c.id := r.inc[c.id]],
                             sent := e.sent + if ack then {Ack(c.id, Held(r.inc[c.id].parts), false, false)} else {})
                  && r.inc[c.id] == i.(parts := i.parts[c.index := Some(c.data)], received := i.received + 1, attempts := 0,
                                       status := Active, lastActivityAt := env.now,
                                       sinceAck := if ack then 0 else i.sinceAck + 1,
                                       phase := if last then Hashing else Collecting))
  {
    assert c.index < c.total;
    hide Held, Decodes;
    if c.id in e.inc { assert e.inc[c.id := e.inc[c.id]] == e.inc; }
  }

  /** A chunk of a transfer of one's own is passed over, and one of a payload already stored is answered
      with a done ack; both change nothing else. */
  lemma StrayChunkIs(L: Limits, e: Engine, c: Msg, env: Env)
    requires c.Chunk? && Decodes(c) && c.id !in e.inc && (c.id in e.out || c.id in e.stored)
    ensures Step(L, e, Receive(c), env) == if c.id in e.out then e else e.(sent := e.sent + {Ack(c.id, [], false, true)})
  {
    hide Decodes, Busy, AcceptChunk;
  }

  /** What is asked of a receiver that does not know the transfer: it says done if it has the payload,
      and asks for all of it if not. */
  lemma UnknownQueryIs(L: Limits, e: Engine, id: Id, env: Env)
    requires id !in e.inc
    ensures Step(L, e, Receive(Query(id)), env) == e.(sent := e.sent + {Ack(id, [], id !in e.stored, id in e.stored)})
  {
  }

  // ---- Refusals and cancels -----------------------------------------------

  /** The events at one end that send a cancel: the user's, a storage refusal, and a resend ack for a transfer
      that is no longer there. What the end has of the transfer is gone. */
  lemma RefusalSends(L: Limits, e: Engine, act: Act, id: Id, env: Env)
    requires || (act == CancelByUser(id) && (id in e.out || id in e.inc)) || (act == StorageRefused(id) && id in e.inc)
             || (act.Receive? && act.msg.Ack? && Decodes(act.msg) && act.msg.id == id && id !in e.out
                 && act.msg.resend && !act.msg.done)
    ensures var r := Step(L, e, act, env);
            && r.sent == e.sent + {Cancel(id)}
            && (act.CancelByUser? ==> r.out == e.out - {id} && r.inc == e.inc - {id})
            && (act.StorageRefused? ==> r.out == e.out && r.inc == e.inc - {id})
            && (act.Receive? ==> r.out == e.out && r.inc == e.inc)
  {
    hide OutStep, OutMsgs;
  }

  /** Where it arrives, the transfer is over: what was received is dropped, what was being sent has failed with
      nothing left to send, and nothing goes out in answer. */
  lemma CancelArrives(L: Limits, e: Engine, id: Id, env: Env)
    ensures var r := Step(L, e, Receive(Cancel(id)), env);
            && r.inc == e.inc - {id} && r.sent == e.sent && r.out.Keys == e.out.Keys
            && (id in e.out ==>
                  r.out == e.out[id := e.out[id].(status := Failed, inFlight := map[], queue := [])])
  {
  }

  /** Forgetting a transfer or a whole room drops the records and says nothing. */
  lemma ForgottenIs(L: Limits, e: Engine, id: Id, env: Env)
    ensures Step(L, e, Forget(id), env) == e.(out := e.out - {id}, inc := e.inc - {id})
    ensures Step(L, e, Clear, env) == e.(out := map[], inc := map[])
  {
  }

  // ---- Digest and save ----------------------------------------------------

  /** A wrong digest empties the record, and the receiver asks for everything again; a right one hands the bytes
      over, once. */
  lemma DigestIs(L: Limits, e: Engine, id: Id, env: Env)
    requires id in e.inc && e.inc[id].phase == Hashing && e.inc[id].attempts == 0
    ensures var i, r := e.inc[id], Step(L, e, HashDone(id), env);
            var d := Flatten(Payloads(i.parts));
            if |d| == i.header.size && Sha256(d) == i.header.sha256
            then r == e.(inc := e.inc[id := i.(phase := Saving)],
                         saving := e.saving[i.serial := Save(id, d, i.total, false)], handed := e.handed + [(id, d)])
            else r == e.(inc := e.inc[id := r.inc[id]], sent := e.sent + {Ack(id, [], true, false)})
                 && r.inc[id] == i.(parts := r.inc[id].parts, received := 0, phase := Collecting, attempts := 1, sinceAck := 0,
                                    lastActivityAt := env.now)
                 && |r.inc[id].parts| == |i.parts| && forall k :: 0 <= k < |i.parts| ==> r.inc[id].parts[k].None?
  {
    NoneHeld(EmptyParts(e.inc[id]).parts);
    hide Flatten, Payloads, Held;
  }

  /** A save that succeeds ends the transfer with a done ack that lists every index; one that fails leaves a
      failed record that holds nothing, unless another record has its id by then, and says nothing. */
  lemma SaveIs(L: Limits, e: Engine, s: nat, env: Env)
    requires s in e.saving && e.saving[s].visible
    ensures var v := e.saving[s];
            var ok, failed := Step(L, e, SaveDone(s, true), env), Step(L, e, SaveDone(s, false), env);
            && ok == e.(saving := e.saving - {s}, inc := e.inc - {v.id},
                        sent := e.sent + {Ack(v.id, seq(v.total, k requires 0 <= k => k), false, true)})
            && failed.sent == e.sent && failed.saving == e.saving - {s} && failed.stored == e.stored
            && (!(v.id in e.inc && e.inc[v.id].serial == s) ==> failed == e.(saving := e.saving - {s}))
            && (v.id in e.inc && e.inc[v.id].serial == s ==>
                  && v.id in failed.inc && failed.inc[v.id].status == Failed && failed.inc[v.id].received == 0
                  && failed.inc[v.id].phase == Collecting
                  && forall k :: 0 <= k < |failed.inc[v.id].parts| ==> failed.inc[v.id].parts[k].None?)
  {
  }

  /** The user's retry revives the sending record and makes the receiving one ask. */
  lemma RetryReaches(L: Limits, e: Engine, id: Id, env: Env)
    ensures var r := Step(L, e, Retry(id), env);
            && r.out.Keys == e.out.Keys && e.sent <= r.sent
            && (id in e.out ==> r.out == e.out[id := OutStep(L, e.out[id], Retried, env)]
                                && OutMsgs(L, id, e.out[id], Retried, env) <= r.sent)
            && (id in e.inc ==> && id in r.inc && r.inc[id] == InStep(L, e.inc[id], UserRetry, env).value
                                && InMsgs(L, id, e.inc[id], UserRetry, env) <= r.sent)
  {
    hide OutStep, OutMsgs, AsksResend;
  }

  // ---- Events at every record ---------------------------------------------

  function OutSide(act: Act): OutEvent { if act.OnConnected? then Connected else if act.OnDisconnected? then Disconnected else Ticked }

  function InSide(act: Act): InEvent { if act.OnConnected? then LinkUp else if act.OnDisconnected? then LinkDown else Tick }

  lemma AllOutReached(L: Limits, e: Engine, ev: OutEvent, env: Env)
    ensures var r := AtAllOut(L, e, ev, env);
            && r.out.Keys == e.out.Keys && r.inc == e.inc && e.sent <= r.sent
            && forall id :: id in e.out ==>
                 r.out[id] == OutStep(L, e.out[id], ev, env) && OutMsgs(L, id, e.out[id], ev, env) <= r.sent
  {
    hide OutStep, OutMsgs;
  }

  lemma AllInReached(L: Limits, e: Engine, ev: InEvent, env: Env)
    ensures var r := AtAllIn(L, e, ev, env);
            && r.out == e.out && e.sent <= r.sent
            && forall id :: id in e.inc ==>
                 && InMsgs(L, id, e.inc[id], ev, env) <= r.sent
                 && (id in r.inc <==> InStep(L, e.inc[id], ev, env).Some?)
                 && (id in r.inc ==> r.inc[id] == InStep(L, e.inc[id], ev, env).value)
  {
    hide InStep, InMsgs;
  }

  /** A connection, its loss and a tick of the timer reach every record of the room, on both sides. */
  lemma EveryRecordIsReached(L: Limits, e: Engine, act: Act, env: Env, id: Id)
    requires act.OnConnected? || act.OnDisconnected? || act.TimerTick?
    ensures var r := Step(L, e, act, env);
            && r.out.Keys == e.out.Keys
            && (id in e.out ==> r.out[id] == OutStep(L, e.out[id], OutSide(act), env)
                                && OutMsgs(L, id, e.out[id], OutSide(act), env) <= r.sent)
            && (id in e.inc ==> && InMsgs(L, id, e.inc[id], InSide(act), env) <= r.sent
                                && (id in r.inc <==> InStep(L, e.inc[id], InSide(act), env).Some?)
                                && (id in r.inc ==> r.inc[id] == InStep(L, e.inc[id], InSide(act), env).value))
  {
    var e1 := AtAllOut(L, e, OutSide(act), env);
    AllOutReached(L, e, OutSide(act), env);
    AllInReached(L, e1, InSide(act), env);
    assert Step(L, e, act, env) == AtAllIn(L, e1, InSide(act), env);
    hide OutStep, OutMsgs, InMsgs, InStep, AtAllIn, AtAllOut, Step;
  }
}
