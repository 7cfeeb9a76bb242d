/** Two honest engines over a relay that drops, repeats and reorders messages. */
module TransferSafety {
  import opened Wrappers
  import opened Chunking
  import opened TransferRecords
  import opened TransferHeld
  import opened TransferSender
  import opened TransferProtocol

  /** What one side ever sends: a message id names one payload. */
  type Catalog = map<Id, Payload>

  ghost predicate CatalogOk(c: Catalog) { forall id :: id in c ==> c[id].Ok() }

  // ---- One direction ------------------------------------------------------

  ghost predicate OutMatches(L: Limits, o: Outgoing, p: Payload) {
    OutOk(L, o) && o.header == p.header && o.data == p.data && o.total == ChunkCount(p.header.size, CHUNK_BYTES)
  }

  /** A chunk on the wire is the slice of its payload that its index names. */
  ghost predicate ChunkMatches(m: Msg, p: Payload)
    requires m.Chunk?
  {
    && m.header == p.header && m.total == ChunkCount(p.header.size, CHUNK_BYTES) && m.index < m.total
    && m.data == Slice(p.data, CHUNK_BYTES, m.index)
  }

  ghost predicate SenderInv(L: Limits, x: Engine, cx: Catalog) {
    && (forall id :: id in x.out ==> id in cx && OutMatches(L, x.out[id], cx[id]))
    && (forall m :: m in x.sent && m.Chunk? ==> m.id in cx && ChunkMatches(m, cx[m.id]))
  }

  ghost predicate InMatches(i: Incoming, p: Payload) {
    && i.header == p.header && i.total == |i.parts| == ChunkCount(p.header.size, CHUNK_BYTES)
    && i.received == |Held(i.parts)|
    && (i.phase == Collecting <==> i.received < i.total)
    && forall k :: 0 <= k < |i.parts| && i.parts[k].Some? ==> i.parts[k].value == Slice(p.data, CHUNK_BYTES, k)
  }

  /** Everything the receiver holds, hands to `deliver`, stores or acknowledges as done is
      the payload its id names, and a done ack is never sent before the payload is stored. */
  ghost predicate ReceiverInv(y: Engine, cx: Catalog) {
    && (forall id :: id in y.inc ==> id in cx && InMatches(y.inc[id], cx[id]))
    && (forall s :: s in y.saving ==> y.saving[s].id in cx && y.saving[s].data == cx[y.saving[s].id].data &&
                                      y.saving[s].total == ChunkCount(cx[y.saving[s].id].header.size, CHUNK_BYTES) &&
                                      (y.saving[s].visible ==> y.saving[s].id in y.stored))
    && (forall id :: id in y.stored ==> id in cx && y.stored[id] == cx[id].data)
    && (forall k :: 0 <= k < |y.handed| ==> y.handed[k].0 in cx && y.handed[k].1 == cx[y.handed[k].0].data)
    && (forall m :: m in y.sent && m.Ack? && m.done ==> m.id in y.stored)
  }

  ghost predicate OneWay(L: Limits, x: Engine, y: Engine, cx: Catalog) {
    SenderInv(L, x, cx) && ReceiverInv(y, cx) && forall id :: id in x.confirmed ==> id in y.stored
  }

  // ---- The sender's half --------------------------------------------------

  lemma {:induction false} PumpLoopFrame(L: Limits, o: Outgoing, canSend: bool)
    ensures var r := PumpLoop(L, o, canSend); r.header == o.header && r.data == o.data && r.total == o.total
    decreases |o.queue|
  {
    if o.status == Active && o.queue != [] && |o.inFlight| < L.window {
      if o.queue[0] in o.acked || o.queue[0] in o.inFlight {
        PumpLoopFrame(L, o.(queue := o.queue[1..]), canSend);
      }
    }
  }

  lemma OutStepFrame(L: Limits, o: Outgoing, ev: OutEvent, env: Env)
    ensures var r := OutStep(L, o, ev, env); r.header == o.header && r.data == o.data && r.total == o.total
  {
    match ev {
      case Started => PumpLoopFrame(L, o.(pumping := true), env.canSend);
      case Acked(have, resend) =>
        PumpLoopFrame(L, AbsorbAck(L, o, have, resend, env.now).(pumping := true), env.canSend);
      case SendResolved(k, ok) =>
        if k < |o.hands| {
          var o1 := o.(hands := o.hands[..k] + o.hands[k + 1..]);
          PumpLoopFrame(L, o1.(lastActivityAt := env.now,
            inFlight := if o.hands[k] in o1.acked then o1.inFlight else o1.inFlight[o.hands[k] := env.now]), env.canSend);
        }
      case Ticked => PumpLoopFrame(L, o.(pumping := true), env.canSend);
      case _ =>
    }
  }

  lemma OutMsgsMatch(L: Limits, id: Id, o: Outgoing, ev: OutEvent, env: Env, p: Payload)
    requires OutMatches(L, OutStep(L, o, ev, env), p)
    ensures forall m :: m in OutMsgs(L, id, o, ev, env) && m.Chunk? ==> m.id == id && ChunkMatches(m, p)
    ensures forall m :: m in OutMsgs(L, id, o, ev, env) ==> !m.Ack?
  {
    hide OutStep, Queries, StillSuspended, Slice, ChunkCount;
    var r := OutStep(L, o, ev, env);
    forall m | m in OutMsgs(L, id, o, ev, env)
      ensures !m.Ack? && (m.Chunk? ==> m.id == id && ChunkMatches(m, p))
    {
      assert m == Query(id) || (|r.hands| > StillSuspended(o, ev) && m == ChunkOf(id, r, r.hands[|r.hands| - 1]));
    }
  }

  /** One event at a matching record keeps it matching and sends only its own slices. */
  lemma OutEventMatches(L: Limits, id: Id, o: Outgoing, ev: OutEvent, env: Env, p: Payload)
    requires OutMatches(L, o, p)
    ensures OutMatches(L, OutStep(L, o, ev, env), p)
    ensures forall m :: m in OutMsgs(L, id, o, ev, env) && m.Chunk? ==> m.id == id && ChunkMatches(m, p)
    ensures forall m :: m in OutMsgs(L, id, o, ev, env) ==> !m.Ack?
  {
    OutStepFrame(L, o, ev, env);
    StepKeeps(L, o, ev, env);
    hide OutStep, Queries, OutMsgs, OutOk, ChunkMatches;
    OutMsgsMatch(L, id, o, ev, env, p);
  }

  lemma FreshMatches(L: Limits, p: Payload, resume: bool, now: int)
    requires p.Ok()
    ensures OutMatches(L, NewOutgoing(p.header, p.data, resume, now), p)
  {
  }

  lemma AtOutKeeps(L: Limits, e: Engine, id: Id, o: Outgoing, ev: OutEvent, env: Env, cx: Catalog)
    requires SenderInv(L, e, cx) && id in cx && OutMatches(L, o, cx[id])
    ensures SenderInv(L, AtOut(L, e, id, o, ev, env), cx)
  {
    hide OutStep, OutMsgs, OutMatches, ChunkMatches;
    OutEventMatches(L, id, o, ev, env, cx[id]);
    var e' := AtOut(L, e, id, o, ev, env);
    forall m | m in e'.sent && m.Chunk? ensures m.id in cx && ChunkMatches(m, cx[m.id]) {
      assert m in e.sent || m in OutMsgs(L, id, o, ev, env);
    }
  }

  lemma AtAllOutKeeps(L: Limits, e: Engine, ev: OutEvent, env: Env, cx: Catalog)
    requires SenderInv(L, e, cx)
    ensures SenderInv(L, AtAllOut(L, e, ev, env), cx)
  {
    hide OutStep, OutMsgs, OutMatches, ChunkMatches;
    forall id | id in e.out
      ensures OutMatches(L, OutStep(L, e.out[id], ev, env), cx[id])
      ensures forall m :: m in OutMsgs(L, id, e.out[id], ev, env) && m.Chunk? ==> m.id == id && ChunkMatches(m, cx[id])
    {
      OutEventMatches(L, id, e.out[id], ev, env, cx[id]);
    }
    var e' := AtAllOut(L, e, ev, env);
    forall m | m in e'.sent && m.Chunk? ensures m.id in cx && ChunkMatches(m, cx[m.id]) {
      if m !in e.sent {
        var id :| id in e.out && m in OutMsgs(L, id, e.out[id], ev, env);
      }
    }
  }

  lemma SenderReceives(L: Limits, x: Engine, m: Msg, env: Env, cx: Catalog)
    requires SenderInv(L, x, cx)
    ensures SenderInv(L, Step(L, x, Receive(m), env), cx)
  {
    hide AtOut, OutMatches, ChunkMatches, Decodes, HandleChunk, InStep, AsksResend;
    if m.Chunk? { ChunkKeepsSender(L, x, m, env, cx); }
    if m.Ack? && m.id in x.out { AtOutKeeps(L, x, m.id, x.out[m.id], Acked(m.have, m.resend), env, cx); }
    if m.Cancel? && m.id in x.out { AtOutKeeps(L, x, m.id, x.out[m.id], Cancelled, env, cx); }
  }

  lemma ChunkKeepsSender(L: Limits, x: Engine, c: Msg, env: Env, cx: Catalog)
    requires c.Chunk? && SenderInv(L, x, cx)
    ensures SenderInv(L, HandleChunk(L, x, c, env), cx)
  {
    hide OutMatches, ChunkMatches, StorePart, Busy, AckDue, Held, SameHeader;
  }

  lemma AllInKeepsSender(L: Limits, x: Engine, ev: InEvent, env: Env, cx: Catalog)
    requires SenderInv(L, x, cx)
    ensures SenderInv(L, AtAllIn(L, x, ev, env), cx)
  {
  }

  lemma AtInKeepsSender(L: Limits, x: Engine, id: Id, ev: InEvent, env: Env, cx: Catalog)
    requires SenderInv(L, x, cx) && id in x.inc
    ensures SenderInv(L, AtIn(L, x, id, x.inc[id], ev, env), cx)
  {
  }

  /** Steps that send no chunk and start no record. */
  lemma OtherActsKeepSender(L: Limits, x: Engine, act: Act, env: Env, cx: Catalog)
    requires SenderInv(L, x, cx)
    requires act.HashDone? || act.SaveVisible? || act.SaveDone? || act.StorageRefused? || act.CancelByUser? || act.Forget?
             || act.Clear?
    ensures SenderInv(L, Step(L, x, act, env), cx)
  {
    hide OutMatches, ChunkMatches, Flatten, Payloads, Held, Upto, EmptyParts;
  }

  /** Whatever happens at the sending side, it only ever sends slices of its payloads. */
  lemma SenderStep(L: Limits, x: Engine, act: Act, env: Env, cx: Catalog)
    requires CatalogOk(cx) && SenderInv(L, x, cx)
    requires act.Begin? ==> act.id in cx && cx[act.id] == act.payload
    ensures SenderInv(L, Step(L, x, act, env), cx)
  {
    assert forall id :: id in x.out ==> id in cx && OutMatches(L, x.out[id], cx[id]);
    hide SenderInv, OutMatches, ChunkMatches, AtAllOut, AtAllIn, AtOut, AtIn, Decodes, HandleChunk, HandleAck,
         HandleQuery, HandleCancel, HashResolved, SaveSettles, SaveShows;
    match act {
      case Begin(id, p, resume) =>
        FreshMatches(L, p, resume, env.now);
        AtOutKeeps(L, x, id, NewOutgoing(p.header, p.data, resume, env.now), if resume then Offered else Started, env, cx);
      case PumpReturns(id, k, ok) =>
        if id in x.out { AtOutKeeps(L, x, id, x.out[id], SendResolved(k, ok), env, cx); }
      case Receive(m) => SenderReceives(L, x, m, env, cx);
      case OnConnected =>
        AtAllOutKeeps(L, x, Connected, env, cx);
        AllInKeepsSender(L, AtAllOut(L, x, Connected, env), LinkUp, env, cx);
      case OnDisconnected =>
        AtAllOutKeeps(L, x, Disconnected, env, cx);
        AllInKeepsSender(L, AtAllOut(L, x, Disconnected, env), LinkDown, env, cx);
      case Retry(id) =>
        if id in x.out { AtOutKeeps(L, x, id, x.out[id], Retried, env, cx); }
        var e1 := if id in x.out then AtOut(L, x, id, x.out[id], Retried, env) else x;
        if id in e1.inc { AtInKeepsSender(L, e1, id, UserRetry, env, cx); }
      case TimerTick =>
        AtAllOutKeeps(L, x, Ticked, env, cx);
        AllInKeepsSender(L, AtAllOut(L, x, Ticked, env), Tick, env, cx);
      case _ => OtherActsKeepSender(L, x, act, env, cx);
    }
  }

  // ---- The receiver's half ------------------------------------------------

  lemma StorePartMatches(i: Incoming, index: nat, data: Bytes, now: int, p: Payload)
    requires InMatches(i, p) && index < |i.parts| && data == Slice(p.data, CHUNK_BYTES, index)
    ensures InMatches(StorePart(i, index, data, now), p)
  {
    if i.phase == Collecting && i.parts[index].None? {
      OneMoreHeld(i.parts, index, data);
      FullIsAllHeld(i.parts[index := Some(data)]);
    }
  }

  lemma EmptyMatches(i: Incoming, p: Payload)
    requires InMatches(i, p)
    ensures InMatches(EmptyParts(i), p)
  {
    NoneHeld(EmptyParts(i).parts);
  }

  lemma NewMatches(p: Payload, now: int, serial: nat)
    ensures InMatches(NewIncoming(p.header, ChunkCount(p.header.size, CHUNK_BYTES), now, serial), p)
  {
    NoneHeld(NewIncoming(p.header, ChunkCount(p.header.size, CHUNK_BYTES), now, serial).parts);
  }

  /** A full record of slices assembles to the payload, so its digest is the announced one. */
  lemma FullRecordAssembles(i: Incoming, p: Payload)
    requires p.Ok() && InMatches(i, p) && i.phase != Collecting
    ensures Flatten(Payloads(i.parts)) == p.data
  {
    FullIsAllHeld(i.parts);
    assert Payloads(i.parts) == Slices(p.data, CHUNK_BYTES);
    SlicesTile(p.data, CHUNK_BYTES);
  }

  /** Every chunk of a catalog payload passes the decoder. */
  lemma HonestChunkDecodes(m: Msg, p: Payload)
    requires m.Chunk? && p.Ok() && ChunkMatches(m, p)
    ensures Decodes(m)
  {
  }

  /** Every ack for a record of a catalog payload passes the decoder. */
  lemma HonestAckDecodes(id: Id, i: Incoming, resend: bool, p: Payload)
    requires p.Ok() && InMatches(i, p)
    ensures Decodes(AckFor(id, i, resend))
  {
    HeldIsExact(i.parts);
    FullIsAllHeld(i.parts);
    assert ChunkCount(p.header.size, CHUNK_BYTES) <= MAX_TRANSFER_CHUNKS;
    forall k | 0 <= k < |Held(i.parts)| ensures Held(i.parts)[k] < MAX_TRANSFER_CHUNKS {
      assert Held(i.parts)[k] in Held(i.parts);
    }
  }

  /** Putting a matching record in place, and saying nothing of delivery. */
  lemma PlacedKeeps(e: Engine, e': Engine, id: Id, r: Incoming, cx: Catalog)
    requires ReceiverInv(e, cx) && id in cx && InMatches(r, cx[id])
    requires e'.inc == e.inc[id := r] && forall m :: m in e'.sent && m !in e.sent && m.Ack? ==> !m.done
    requires e'.saving == e.saving && e'.stored == e.stored && e'.handed == e.handed
    ensures ReceiverInv(e', cx)
  {
  }

  lemma AcceptMatches(L: Limits, e: Engine, i: Incoming, c: Msg, env: Env, cx: Catalog)
    requires c.Chunk? && c.id in cx && ChunkMatches(c, cx[c.id]) && InMatches(i, cx[c.id])
    requires ReceiverInv(e, cx)
    ensures ReceiverInv(AcceptChunk(L, e, i, c, env), cx)
  {
    var e' := AcceptChunk(L, e, i, c, env);
    var r := StorePart(i, c.index, c.data, env.now);
    if SameHeader(i.header, c.header) && i.total == c.total && c.index < |i.parts| {
      StorePartMatches(i, c.index, c.data, env.now, cx[c.id]);
      hide ReceiverInv, InMatches, StorePart, Held, Slice, SameHeader, AckDue, ChunkMatches;
      if i.phase != Collecting || i.parts[c.index].Some? {
        PlacedKeeps(e, e', c.id, i, cx);
      } else if AckDue(L, r) {
        SinceAckMatches(r, cx[c.id]);
        PlacedKeeps(e, e', c.id, r.(sinceAck := 0), cx);
      } else {
        PlacedKeeps(e, e', c.id, r, cx);
      }
    } else {
      hide ReceiverInv, InMatches, StorePart, Held, Slice, SameHeader, AckDue, ChunkMatches;
    }
  }

  lemma SinceAckMatches(i: Incoming, p: Payload)
    requires InMatches(i, p)
    ensures InMatches(i.(sinceAck := 0), p)
  {
  }

  lemma ChunkStep(L: Limits, y: Engine, c: Msg, env: Env, cx: Catalog)
    requires c.Chunk? && c.id in cx && ChunkMatches(c, cx[c.id]) && ReceiverInv(y, cx)
    ensures ReceiverInv(HandleChunk(L, y, c, env), cx)
  {
    hide InMatches, AcceptChunk, Busy, Slice;
    if c.id in y.inc {
      AcceptMatches(L, y, y.inc[c.id], c, env, cx);
    } else if c.id !in y.out && c.id !in y.stored && !Busy(L, y, c) {
      assert c.header == cx[c.id].header && c.total == ChunkCount(cx[c.id].header.size, CHUNK_BYTES);
      NewMatches(cx[c.id], env.now, y.nextSerial);
      AcceptMatches(L, y.(nextSerial := y.nextSerial + 1),
                    NewIncoming(c.header, c.total, env.now, y.nextSerial), c, env, cx);
    }
  }

  lemma InEventMatches(L: Limits, i: Incoming, ev: InEvent, env: Env, p: Payload)
    requires InMatches(i, p)
    ensures InStep(L, i, ev, env).Some? ==> InMatches(InStep(L, i, ev, env).value, p)
  {
  }

  lemma AtInKeeps(L: Limits, y: Engine, id: Id, ev: InEvent, env: Env, cx: Catalog)
    requires ReceiverInv(y, cx) && id in y.inc
    ensures ReceiverInv(AtIn(L, y, id, y.inc[id], ev, env), cx)
  {
  }

  lemma AtAllInKeeps(L: Limits, y: Engine, ev: InEvent, env: Env, cx: Catalog)
    requires ReceiverInv(y, cx)
    ensures ReceiverInv(AtAllIn(L, y, ev, env), cx)
  {
    hide InStep, InMatches, AsksResend, Held;
    forall id | id in y.inc
      ensures InStep(L, y.inc[id], ev, env).Some? ==> InMatches(InStep(L, y.inc[id], ev, env).value, cx[id])
    {
      InEventMatches(L, y.inc[id], ev, env, cx[id]);
    }
  }

  /** Between honest ends the digest check always passes: `complete` goes on to `deliver`. */
  lemma HonestHashPasses(y: Engine, id: Id, env: Env, cx: Catalog)
    requires CatalogOk(cx) && ReceiverInv(y, cx) && id in y.inc && y.inc[id].phase == Hashing
    ensures var r := HashResolved(y, id, env);
            && r.inc == y.inc[id := y.inc[id].(phase := Saving)] && r.stored == y.stored
            && r.saving == y.saving[y.inc[id].serial := Save(id, cx[id].data, y.inc[id].total, false)]
            && r.handed == y.handed + [(id, cx[id].data)] && r.sent == y.sent
    ensures ReceiverInv(HashResolved(y, id, env), cx)
  {
    hide Flatten, Payloads, Held, Slice, ChunkCount, EmptyParts;
    FullRecordAssembles(y.inc[id], cx[id]);
    var i := y.inc[id];
    assert InMatches(i.(phase := Saving), cx[id]);
    hide InMatches;
  }

  lemma SettleKeeps(y: Engine, s: nat, ok: bool, env: Env, cx: Catalog)
    requires ReceiverInv(y, cx)
    ensures ReceiverInv(SaveSettles(y, s, ok, env), cx)
  {
    if s in y.saving && y.saving[s].id in y.inc {
      EmptyMatches(y.inc[y.saving[s].id], cx[y.saving[s].id]);
    }
    hide InMatches, EmptyParts, Held;
  }

  lemma NoAckFromSender(L: Limits, id: Id, o: Outgoing, ev: OutEvent, env: Env)
    ensures forall q :: q in OutMsgs(L, id, o, ev, env) ==> !q.Ack?
  {
  }

  lemma ReceiverReceives(L: Limits, y: Engine, m: Msg, env: Env, cx: Catalog)
    requires ReceiverInv(y, cx)
    requires m.Chunk? ==> m.id in cx && ChunkMatches(m, cx[m.id])
    ensures ReceiverInv(Step(L, y, Receive(m), env), cx)
  {
    hide HandleChunk, InMatches, OutMsgs, OutStep, AtIn, Decodes, ChunkMatches;
    if m.Chunk? { ChunkStep(L, y, m, env, cx); }
    if m.Query? && m.id in y.inc { AtInKeeps(L, y, m.id, PeerAsked, env, cx); }
    forall id, o: Outgoing, ev: OutEvent, q: Msg | q in OutMsgs(L, id, o, ev, env) ensures !q.Ack? {
      NoAckFromSender(L, id, o, ev, env);
    }
  }

  /** The sender-side half of a handler sends no ack and touches nothing the receiver has. */
  lemma SenderSideKeepsReceiver(L: Limits, y: Engine, ev: OutEvent, env: Env, cx: Catalog)
    requires ReceiverInv(y, cx)
    ensures ReceiverInv(AtAllOut(L, y, ev, env), cx)
  {
  }

  lemma AtOutKeepsReceiver(L: Limits, y: Engine, id: Id, o: Outgoing, ev: OutEvent, env: Env, cx: Catalog)
    requires ReceiverInv(y, cx)
    ensures ReceiverInv(AtOut(L, y, id, o, ev, env), cx)
  {
  }

  /** What the user and the storage check can do. */
  lemma DropsKeepReceiver(L: Limits, y: Engine, act: Act, env: Env, cx: Catalog)
    requires ReceiverInv(y, cx)
    requires act.StorageRefused? || act.CancelByUser? || act.Forget? || act.Clear?
    ensures ReceiverInv(Step(L, y, act, env), cx)
  {
  }

  lemma SaveShownKeeps(L: Limits, y: Engine, act: Act, env: Env, cx: Catalog)
    requires act.SaveVisible? && ReceiverInv(y, cx)
    ensures ReceiverInv(Step(L, y, act, env), cx)
  {
  }

  lemma HashKeepsReceiver(L: Limits, y: Engine, act: Act, env: Env, cx: Catalog)
    requires act.HashDone? && CatalogOk(cx) && ReceiverInv(y, cx)
    ensures ReceiverInv(Step(L, y, act, env), cx)
  {
    if act.id in y.inc && y.inc[act.id].phase == Hashing { HonestHashPasses(y, act.id, env, cx); }
    hide InMatches;
  }

  lemma SaveDoneKeeps(L: Limits, y: Engine, act: Act, env: Env, cx: Catalog)
    requires act.SaveDone? && ReceiverInv(y, cx)
    ensures ReceiverInv(Step(L, y, act, env), cx)
  {
    SettleKeeps(y, act.serial, act.ok, env, cx);
    hide InMatches, SaveSettles;
  }

  /** Whatever happens at the receiving side, what it holds, delivers and stores is genuine. */
  lemma ReceiverStep(L: Limits, y: Engine, act: Act, env: Env, cx: Catalog)
    requires CatalogOk(cx) && ReceiverInv(y, cx)
    requires act.Receive? && act.msg.Chunk? ==> act.msg.id in cx && ChunkMatches(act.msg, cx[act.msg.id])
    ensures ReceiverInv(Step(L, y, act, env), cx)
  {
    hide ReceiverInv, AtOut, InMatches, AtAllOut, AtAllIn, AtIn, HandleChunk, HandleAck, HandleCancel, HandleQuery, Decodes,
         SaveSettles, ChunkMatches;
    match act {
      case Receive(m) => ReceiverReceives(L, y, m, env, cx);
      case HashDone(_) => HashKeepsReceiver(L, y, act, env, cx);
      case SaveDone(_, _) => SaveDoneKeeps(L, y, act, env, cx);
      case OnConnected =>
        SenderSideKeepsReceiver(L, y, Connected, env, cx);
        AtAllInKeeps(L, AtAllOut(L, y, Connected, env), LinkUp, env, cx);
      case OnDisconnected =>
        SenderSideKeepsReceiver(L, y, Disconnected, env, cx);
        AtAllInKeeps(L, AtAllOut(L, y, Disconnected, env), LinkDown, env, cx);
      case Retry(id) =>
        var e1 := if id in y.out then AtOut(L, y, id, y.out[id], Retried, env) else y;
        if id in y.out { AtOutKeepsReceiver(L, y, id, y.out[id], Retried, env, cx); }
        if id in e1.inc { AtInKeeps(L, e1, id, UserRetry, env, cx); }
      case Begin(id, p, resume) =>
        AtOutKeepsReceiver(L, y, id, NewOutgoing(p.header, p.data, resume, env.now),
                           if resume then Offered else Started, env, cx);
      case PumpReturns(id, k, ok) =>
        if id in y.out { AtOutKeepsReceiver(L, y, id, y.out[id], SendResolved(k, ok), env, cx); }
      case TimerTick =>
        SenderSideKeepsReceiver(L, y, Ticked, env, cx);
        AtAllInKeeps(L, AtAllOut(L, y, Ticked, env), Tick, env, cx);
      case SaveVisible(_) => SaveShownKeeps(L, y, act, env, cx);
      case _ => DropsKeepReceiver(L, y, act, env, cx);
    }
  }
}
