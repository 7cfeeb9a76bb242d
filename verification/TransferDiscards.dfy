/** Transfers whose receiver has thrown parts away: which of them fresh sends can still complete. */
module TransferDiscards {
  import opened Wrappers
  import opened Chunking
  import opened TransferRecords
  import opened TransferHeld
  import opened TransferSender
  import opened TransferProtocol
  import opened TransferSafety
  import opened TransferRuns
  import opened TransferProgress
  import opened TransferCompletion

  /** The chunks the sender has been told are there, and the receiver has not. */
  function Lost(s: Sys, id: Id): set<nat>
    requires Collects(s, id)
  {
    s.a.out[id].acked - HeldSet(s.b.inc[id])
  }

  // ---- The sender never sends an acknowledged chunk again -----------------

  /** A pump call that takes up a chunk takes up one that is not acknowledged. */
  lemma {:induction false} PumpLoopTakes(L: Limits, o: Outgoing, canSend: bool)
    ensures var r := PumpLoop(L, o, canSend);
            && r.acked == o.acked
            && (r.hands == o.hands || (r.hands != [] && r.hands == o.hands + [r.hands[|r.hands| - 1]]
                                       && r.hands[|r.hands| - 1] !in o.acked))
    decreases |o.queue|
  {
    if o.status == Active && o.queue != [] && |o.inFlight| < L.window {
      if o.queue[0] in o.acked || o.queue[0] in o.inFlight {
        PumpLoopTakes(L, o.(queue := o.queue[1..]), canSend);
      }
    }
  }

  /** The acknowledged set never shrinks, and what an event newly takes up is outside it. */
  lemma EventTakes(L: Limits, o: Outgoing, ev: OutEvent, env: Env)
    ensures var r := OutStep(L, o, ev, env);
            && o.acked <= r.acked
            && (|r.hands| > StillSuspended(o, ev) ==> r.hands[|r.hands| - 1] !in o.acked)
  {
    hide Pump, Resume, AbsorbAck, Backoff, MustPump;
    match ev {
      case Started => PumpTakes(L, o, env.canSend);
      case Acked(have, resend) =>
        AbsorbKeeps(L, o, have, resend, env.now);
        PumpTakes(L, AbsorbAck(L, o, have, resend, env.now), env.canSend);
      case SendResolved(k, ok) => if k < |o.hands| { ResumeTakes(L, o, k, ok, env); }
      case Ticked => PumpTakes(L, o, env.canSend);
      case _ =>
    }
  }

  lemma AbsorbKeeps(L: Limits, o: Outgoing, have: seq<nat>, resend: bool, now: int)
    ensures var r := AbsorbAck(L, o, have, resend, now); o.acked <= r.acked && r.hands == o.hands
  {
    hide Known, Recent, Unheld;
  }

  lemma PumpTakes(L: Limits, o: Outgoing, canSend: bool)
    ensures var r := Pump(L, o, canSend);
            r.acked == o.acked && (|r.hands| > |o.hands| ==> r.hands[|r.hands| - 1] !in o.acked)
  {
    PumpLoopTakes(L, o.(pumping := true), canSend);
    hide PumpLoop;
  }

  lemma ResumeTakes(L: Limits, o: Outgoing, k: nat, ok: bool, env: Env)
    requires k < |o.hands|
    ensures var r := Resume(L, o, k, ok, env);
            r.acked == o.acked && (|r.hands| > |o.hands| - 1 ==> r.hands[|r.hands| - 1] !in o.acked)
  {
    var o1 := o.(hands := o.hands[..k] + o.hands[k + 1..]);
    PumpLoopTakes(L, o1.(lastActivityAt := env.now,
      inFlight := if o.hands[k] in o1.acked then o1.inFlight else o1.inFlight[o.hands[k] := env.now]), env.canSend);
    hide PumpLoop;
  }

  /** The sender's record, if it still has one, counts the chunk as acknowledged, and no copy of it is under way. */
  ghost predicate Settled(x: Engine, id: Id, k: nat) {
    && (id in x.out ==> k in x.out[id].acked)
    && forall m :: m in x.sent && m.Chunk? && m.id == id ==> m.index != k
  }

  lemma MsgsOmit(L: Limits, j: Id, o: Outgoing, ev: OutEvent, env: Env, id: Id, k: nat)
    requires j == id ==> k in o.acked
    ensures forall m :: m in OutMsgs(L, j, o, ev, env) && m.Chunk? && m.id == id ==> m.index != k
    ensures j == id ==> k in OutStep(L, o, ev, env).acked
  {
    EventTakes(L, o, ev, env);
    hide OutStep, Queries, StillSuspended, Slice;
  }

  lemma AtOutSettled(L: Limits, x: Engine, j: Id, o: Outgoing, ev: OutEvent, env: Env, id: Id, k: nat)
    requires Settled(x, id, k) && (j == id ==> k in o.acked)
    ensures Settled(AtOut(L, x, j, o, ev, env), id, k)
  {
    MsgsOmit(L, j, o, ev, env, id, k);
    hide OutStep, OutMsgs;
  }

  lemma AtAllOutSettled(L: Limits, x: Engine, ev: OutEvent, env: Env, id: Id, k: nat)
    requires Settled(x, id, k)
    ensures Settled(AtAllOut(L, x, ev, env), id, k)
  {
    hide OutStep, OutMsgs;
    forall j | j in x.out
      ensures forall m :: m in OutMsgs(L, j, x.out[j], ev, env) && m.Chunk? && m.id == id ==> m.index != k
      ensures j == id ==> k in OutStep(L, x.out[j], ev, env).acked
    {
      MsgsOmit(L, j, x.out[j], ev, env, id, k);
    }
  }

  /** No record is made or changed, and no chunk is sent. */
  ghost predicate NoSends(x: Engine, x': Engine) {
    && (forall id :: id in x'.out ==> id in x.out && x'.out[id] == x.out[id])
    && forall m :: m in x'.sent && m.Chunk? ==> m in x.sent
  }

  lemma NoSendsSettled(x: Engine, x': Engine, id: Id, k: nat)
    requires NoSends(x, x') && Settled(x, id, k)
    ensures Settled(x', id, k)
  {
  }

  lemma AtInNoSends(L: Limits, x: Engine, id: Id, ev: InEvent, env: Env)
    requires id in x.inc
    ensures NoSends(x, AtIn(L, x, id, x.inc[id], ev, env))
  {
    hide InStep, AsksResend;
  }

  lemma AtAllInNoSends(L: Limits, x: Engine, ev: InEvent, env: Env)
    ensures NoSends(x, AtAllIn(L, x, ev, env))
  {
    hide InStep, AsksResend;
  }

  lemma ChunkNoSends(L: Limits, x: Engine, c: Msg, env: Env)
    requires c.Chunk?
    ensures NoSends(x, HandleChunk(L, x, c, env))
  {
    hide Busy, StorePart, Held, SameHeader, AckDue;
  }

  lemma OtherActsNoSends(L: Limits, x: Engine, act: Act, env: Env)
    requires act.HashDone? || act.SaveVisible? || act.SaveDone? || act.StorageRefused? || act.CancelByUser? || act.Forget?
             || act.Clear?
    ensures NoSends(x, Step(L, x, act, env))
  {
    hide Flatten, Payloads, Held, Upto, EmptyParts;
  }

  lemma ReceiveSettled(L: Limits, x: Engine, m: Msg, env: Env, id: Id, k: nat)
    requires Settled(x, id, k)
    ensures Settled(Step(L, x, Receive(m), env), id, k)
  {
    hide AtOut, AtIn, HandleChunk, Decodes;
    match m
    case Chunk(_, _, _, _, _) => ChunkNoSends(L, x, m, env); NoSendsSettled(x, HandleChunk(L, x, m, env), id, k);
    case Ack(_, _, _, _) =>
      if m.id in x.out { AtOutSettled(L, x, m.id, x.out[m.id], Acked(m.have, m.resend), env, id, k); }
    case Query(_) =>
      if m.id in x.inc {
        AtInNoSends(L, x, m.id, PeerAsked, env);
        NoSendsSettled(x, AtIn(L, x, m.id, x.inc[m.id], PeerAsked, env), id, k);
      }
    case Cancel(_) => if m.id in x.out { AtOutSettled(L, x, m.id, x.out[m.id], Cancelled, env, id, k); }
  }

  lemma AllSettled(L: Limits, x: Engine, oe: OutEvent, ie: InEvent, env: Env, id: Id, k: nat)
    requires Settled(x, id, k)
    ensures Settled(AtAllIn(L, AtAllOut(L, x, oe, env), ie, env), id, k)
  {
    AtAllOutSettled(L, x, oe, env, id, k);
    AtAllInNoSends(L, AtAllOut(L, x, oe, env), ie, env);
    NoSendsSettled(AtAllOut(L, x, oe, env), AtAllIn(L, AtAllOut(L, x, oe, env), ie, env), id, k);
  }

  lemma SettledStays(L: Limits, x: Engine, act: Act, env: Env, id: Id, k: nat)
    requires Settled(x, id, k) && (act.Begin? ==> act.id != id)
    ensures Settled(Step(L, x, act, env), id, k)
  {
    hide AtOut, AtIn, AtAllOut, AtAllIn, HandleChunk, HandleAck, HandleQuery, HandleCancel, HashResolved, SaveSettles,
         SaveShows, Decodes;
    match act {
      case Begin(j, p, resume) =>
        AtOutSettled(L, x, j, NewOutgoing(p.header, p.data, resume, env.now), if resume then Offered else Started, env, id, k);
      case PumpReturns(j, n, ok) => if j in x.out { AtOutSettled(L, x, j, x.out[j], SendResolved(n, ok), env, id, k); }
      case Receive(m) => ReceiveSettled(L, x, m, env, id, k);
      case OnConnected => AllSettled(L, x, Connected, LinkUp, env, id, k);
      case OnDisconnected => AllSettled(L, x, Disconnected, LinkDown, env, id, k);
      case TimerTick => AllSettled(L, x, Ticked, Tick, env, id, k);
      case Retry(j) =>
        if j in x.out { AtOutSettled(L, x, j, x.out[j], Retried, env, id, k); }
        var e1 := if j in x.out then AtOut(L, x, j, x.out[j], Retried, env) else x;
        if j in e1.inc {
          AtInNoSends(L, e1, j, UserRetry, env);
          NoSendsSettled(e1, AtIn(L, e1, j, e1.inc[j], UserRetry, env), id, k);
        }
      case _ =>
        OtherActsNoSends(L, x, act, env);
        NoSendsSettled(x, Step(L, x, act, env), id, k);
    }
  }

  // ---- The receiver cannot do without it ----------------------------------

  /** The receiver has neither the chunk nor the payload, and no save of it is pending. */
  ghost predicate Lacks(y: Engine, id: Id, k: nat) {
    !Holds(y, id, k) && forall s :: s in y.saving ==> y.saving[s].id != id
  }

  lemma AcceptLacks(L: Limits, y: Engine, i: Incoming, c: Msg, env: Env, id: Id, k: nat)
    requires c.Chunk? && Lacks(y, id, k) && (c.id == id ==> c.index != k && !(k < |i.parts| && i.parts[k].Some?))
    ensures Lacks(AcceptChunk(L, y, i, c, env), id, k)
  {
    hide Held, SameHeader, AckDue;
  }

  lemma ChunkLacks(L: Limits, y: Engine, c: Msg, env: Env, id: Id, k: nat)
    requires c.Chunk? && Lacks(y, id, k) && (c.id == id ==> c.index != k)
    ensures Lacks(HandleChunk(L, y, c, env), id, k)
  {
    hide AcceptChunk, Busy;
    if c.id in y.inc {
      AcceptLacks(L, y, y.inc[c.id], c, env, id, k);
    } else {
      AcceptLacks(L, y.(nextSerial := y.nextSerial + 1), NewIncoming(c.header, c.total, env.now, y.nextSerial), c, env, id, k);
    }
  }

  lemma AtInLacks(L: Limits, y: Engine, j: Id, ev: InEvent, env: Env, id: Id, k: nat)
    requires j in y.inc && Lacks(y, id, k)
    ensures Lacks(AtIn(L, y, j, y.inc[j], ev, env), id, k)
  {
    InStepParts(L, y.inc[j], ev, env);
    hide InStep, InMsgs;
  }

  lemma AtAllInLacks(L: Limits, y: Engine, ev: InEvent, env: Env, id: Id, k: nat)
    requires Lacks(y, id, k)
    ensures Lacks(AtAllIn(L, y, ev, env), id, k)
  {
    if id in y.inc { InStepParts(L, y.inc[id], ev, env); }
    hide InStep, InMsgs;
  }

  lemma SenderSideLacks(L: Limits, y: Engine, ev: OutEvent, env: Env, id: Id, k: nat)
    requires Lacks(y, id, k)
    ensures Lacks(AtAllOut(L, y, ev, env), id, k)
    ensures forall j, o :: Lacks(AtOut(L, y, j, o, ev, env), id, k)
  {
    hide OutStep, OutMsgs;
  }

  /** A record that lacks a part is not being hashed. */
  lemma HashLacks(y: Engine, j: Id, env: Env, cx: Catalog, id: Id, k: nat)
    requires ReceiverInv(y, cx) && Lacks(y, id, k) && id in cx && k < ChunkCount(cx[id].header.size, CHUNK_BYTES)
    ensures Lacks(HashResolved(y, j, env), id, k)
  {
    if j == id && id in y.inc {
      FullIsAllHeld(y.inc[id].parts);
      assert InMatches(y.inc[id], cx[id]);
    }
    hide ReceiverInv, InMatches, Flatten, Payloads, Held, ChunkCount;
  }

  lemma OtherActsLack(L: Limits, y: Engine, act: Act, env: Env, id: Id, k: nat)
    requires Lacks(y, id, k)
    requires act.SaveVisible? || act.SaveDone? || act.StorageRefused? || act.CancelByUser? || act.Forget? || act.Clear?
    ensures Lacks(Step(L, y, act, env), id, k)
  {
    hide Upto;
  }

  lemma ReceiveLacks(L: Limits, y: Engine, m: Msg, env: Env, id: Id, k: nat)
    requires Lacks(y, id, k) && (m.Chunk? && m.id == id ==> m.index != k)
    ensures Lacks(Step(L, y, Receive(m), env), id, k)
  {
    hide AtOut, AtIn, HandleChunk, Decodes, Lacks;
    match m
    case Chunk(_, _, _, _, _) => ChunkLacks(L, y, m, env, id, k);
    case Query(_) =>
      if m.id in y.inc { AtInLacks(L, y, m.id, PeerAsked, env, id, k); }
      else { SameLacks(y, Step(L, y, Receive(m), env), id, k); }
    case Ack(_, _, _, _) =>
      SenderSideLacks(L, y, Acked(m.have, m.resend), env, id, k);
      if !(m.id in y.out && !m.done) { SameLacks(y, Step(L, y, Receive(m), env), id, k); }
    case Cancel(_) =>
      SenderSideLacks(L, y, Cancelled, env, id, k);
      var e1 := if m.id in y.out then AtOut(L, y, m.id, y.out[m.id], Cancelled, env) else y;
      SameLacks(e1, e1.(inc := e1.inc - {m.id}), id, k);
  }

  lemma SameLacks(y: Engine, y': Engine, id: Id, k: nat)
    requires Lacks(y, id, k) && y'.saving == y.saving && y'.stored == y.stored
    requires forall j :: j in y'.inc ==> j in y.inc && y'.inc[j] == y.inc[j]
    ensures Lacks(y', id, k)
  {
  }

  lemma LacksStays(L: Limits, y: Engine, act: Act, env: Env, cx: Catalog, id: Id, k: nat)
    requires ReceiverInv(y, cx) && Lacks(y, id, k) && id in cx && k < ChunkCount(cx[id].header.size, CHUNK_BYTES)
    requires act.Receive? && act.msg.Chunk? && act.msg.id == id ==> act.msg.index != k
    ensures Lacks(Step(L, y, act, env), id, k)
  {
    hide AtOut, AtIn, AtAllOut, AtAllIn, HandleChunk, HandleAck, HandleQuery, HandleCancel, HashResolved, Decodes, Lacks,
         ReceiverInv, ChunkCount;
    match act {
      case Begin(j, p, resume) => SenderSideLacks(L, y, if resume then Offered else Started, env, id, k);
      case PumpReturns(j, n, ok) => SenderSideLacks(L, y, SendResolved(n, ok), env, id, k);
      case Receive(m) => ReceiveLacks(L, y, m, env, id, k);
      case HashDone(j) => HashLacks(y, j, env, cx, id, k);
      case OnConnected =>
        SenderSideLacks(L, y, Connected, env, id, k);
        AtAllInLacks(L, AtAllOut(L, y, Connected, env), LinkUp, env, id, k);
      case OnDisconnected =>
        SenderSideLacks(L, y, Disconnected, env, id, k);
        AtAllInLacks(L, AtAllOut(L, y, Disconnected, env), LinkDown, env, id, k);
      case TimerTick =>
        SenderSideLacks(L, y, Ticked, env, id, k);
        AtAllInLacks(L, AtAllOut(L, y, Ticked, env), Tick, env, id, k);
      case Retry(j) =>
        SenderSideLacks(L, y, Retried, env, id, k);
        var e1 := if j in y.out then AtOut(L, y, j, y.out[j], Retried, env) else y;
        if j in e1.inc { AtInLacks(L, e1, j, UserRetry, env, id, k); }
      case _ => OtherActsLack(L, y, act, env, id, k);
    }
  }

  // ---- The exact condition ------------------------------------------------

  /** The transfer is not started anew. */
  predicate Begins(ev: Event, id: Id) { ev.act.Begin? && ev.act.id == id }

  ghost predicate NoBegin(evs: seq<Event>, id: Id) { forall k :: 0 <= k < |evs| ==> !Begins(evs[k], id) }

  /** From here on the relay delivers no copy it already has of a lost chunk. */
  ghost function Onward(s: Sys, id: Id): Sys
    requires Collects(s, id)
  {
    s.(a := s.a.(sent := set m | m in s.a.sent && !(m.Chunk? && m.id == id && m.index in Lost(s, id))))
  }

  lemma OneStuck(L: Limits, s: Sys, ev: Event, ca: Catalog, cb: Catalog, id: Id, k: nat)
    requires OneWay(L, s.a, s.b, ca) && id in ca && k < ChunkCount(ca[id].header.size, CHUNK_BYTES)
    requires Settled(s.a, id, k) && Lacks(s.b, id, k) && Possible(s, ev, ca, cb) && !Begins(ev, id)
    ensures var t := Apply(L, s, ev); Settled(t.a, id, k) && Lacks(t.b, id, k)
  {
    hide Step, Lacks, SenderInv, ReceiverInv, ChunkCount;
    if ev.atA {
      SettledStays(L, s.a, ev.act, ev.env, id, k);
    } else {
      LacksStays(L, s.b, ev.act, ev.env, ca, id, k);
    }
  }

  lemma {:induction false} StaysStuck(L: Limits, s: Sys, more: seq<Event>, ca: Catalog, cb: Catalog, id: Id, k: nat)
    requires CatalogOk(ca) && OneWay(L, s.a, s.b, ca) && id in ca && k < ChunkCount(ca[id].header.size, CHUNK_BYTES)
    requires Settled(s.a, id, k) && Lacks(s.b, id, k) && LegalFrom(L, s, more, ca, cb) && NoBegin(more, id)
    ensures id !in RunFrom(L, s, more).b.stored
    decreases |more|
  {
    if more != [] {
      assert !Begins(more[0], id) && NoBegin(more[1..], id);
      hide OneWay, Settled, Lacks, Apply, Possible, NoBegin, CatalogOk, ChunkCount;
      FromOne(L, s, more[0], ca, cb);
      FromIsSound(L, s, [more[0]], ca, cb);
      OneStuck(L, s, more[0], ca, cb, id, k);
      StaysStuck(L, Apply(L, s, more[0]), more[1..], ca, cb, id, k);
    }
  }

  lemma OnwardIsSound(L: Limits, s: Sys, ca: Catalog, id: Id)
    requires OneWay(L, s.a, s.b, ca) && Collects(s, id)
    ensures OneWay(L, Onward(s, id).a, s.b, ca)
  {
    hide OutMatches, ChunkMatches, ReceiverInv;
  }

  /** A chunk that is lost: acknowledged, missing, and of the payload. */
  lemma LostIsStuck(L: Limits, s: Sys, ca: Catalog, id: Id, k: nat)
    requires OneWay(L, s.a, s.b, ca) && Collects(s, id) && k in Lost(s, id)
    requires id !in s.b.stored && forall n :: n in s.b.saving ==> s.b.saving[n].id != id
    ensures id in ca && k < ChunkCount(ca[id].header.size, CHUNK_BYTES)
    ensures Settled(Onward(s, id).a, id, k) && Lacks(s.b, id, k)
  {
    assert OutMatches(L, s.a.out[id], ca[id]);
    hide OneWay, ChunkCount;
  }

  /** With nothing lost, the user's retry starts a completing run. */
  lemma NothingLostCompletes(L: Limits, s: Sys, ca: Catalog, cb: Catalog, id: Id) returns (more: seq<Event>)
    requires CatalogOk(ca) && OneWay(L, s.a, s.b, ca) && HandsSent(s.a) && Collects(s, id) && Lost(s, id) == {}
    requires L.window >= 1 && L.maxAttempts >= 1
    ensures LegalFrom(L, s, more, ca, cb) && NoBegin(more, id) && id in RunFrom(L, s, more).b.stored
  {
    hide OneWay, CatalogOk, HandsSent, Live, LegalFrom, RunFrom, Lost, HeldSet, Unaided;
    var now := OldBy(L, s.a.out[id].inFlight);
    LosesNothing(L, s, ca, id, now);
    var ask := Event(false, Retry(id), Env(now, true));
    assert Asks(L, s, id, ask);
    var rest := LiveCompletes(L, s, ca, cb, id, ask, now);
    AskedBeginsNothing(ask, rest, id);
    more := [ask] + rest;
  }

  lemma AskedBeginsNothing(ask: Event, rest: seq<Event>, id: Id)
    requires !ask.act.Begin? && Unaided(rest)
    ensures NoBegin([ask] + rest, id)
  {
    var evs := [ask] + rest;
    assert forall k :: 1 <= k < |evs| ==> evs[k] == rest[k - 1];
  }

  lemma LosesNothing(L: Limits, s: Sys, ca: Catalog, id: Id, now: int)
    requires OneWay(L, s.a, s.b, ca) && HandsSent(s.a) && Collects(s, id) && Lost(s, id) == {}
    requires forall j :: j in s.a.out[id].inFlight ==> now - s.a.out[id].inFlight[j] >= L.stallMs
    ensures Live(L, s, id, ca, now)
  {
    assert id in ca && OutMatches(L, s.a.out[id], ca[id]) && InMatches(s.b.inc[id], ca[id]);
    forall k | k in s.a.out[id].acked ensures k in HeldSet(s.b.inc[id]) {
      assert k !in Lost(s, id);
    }
    hide OneWay, HandsSent, Held, OutOk;
  }

  lemma NothingLostOnward(s: Sys, id: Id)
    requires Collects(s, id) && Lost(s, id) == {}
    ensures Onward(s, id) == s
  {
    assert (set m | m in s.a.sent && !(m.Chunk? && m.id == id && m.index in Lost(s, id))) == s.a.sent;
  }

  /** Whatever has been discarded, by whom and why: the transfer can still complete without a copy the
      relay already has of a chunk that is acknowledged but missing, and without being started anew,
      exactly when no chunk is acknowledged but missing. */
  lemma CompletableIff(L: Limits, evs: seq<Event>, ca: Catalog, cb: Catalog, id: Id)
    requires CatalogOk(ca) && CatalogOk(cb) && Legal(L, evs, ca, cb) && L.window >= 1 && L.maxAttempts >= 1
    requires var s := Run(L, evs);
             Collects(s, id) && id !in s.b.stored && forall n :: n in s.b.saving ==> s.b.saving[n].id != id
    ensures var s := Run(L, evs);
            var t := Onward(s, id);
            (exists more :: LegalFrom(L, t, more, ca, cb) && NoBegin(more, id) && id in RunFrom(L, t, more).b.stored)
            <==> Lost(s, id) == {}
  {
    var s := Run(L, evs);
    RunsAreSound(L, evs, ca, cb);
    RunHandsSent(L, evs, ca, cb);
    hide Run, Legal, LegalFrom, RunFrom, OneWay, CatalogOk, NoBegin, HandsSent, Onward, Lost;
    if Lost(s, id) == {} {
      NothingLostOnward(s, id);
      var more := NothingLostCompletes(L, s, ca, cb, id);
    } else {
      var k :| k in Lost(s, id);
      LostIsStuck(L, s, ca, id, k);
      OnwardIsSound(L, s, ca, id);
      var t := Onward(s, id);
      OnwardReceiver(s, id);
      forall more | LegalFrom(L, t, more, ca, cb) && NoBegin(more, id) ensures id !in RunFrom(L, t, more).b.stored {
        StaysStuck(L, t, more, ca, cb, id, k);
      }
    }
  }

  lemma OnwardReceiver(s: Sys, id: Id)
    requires Collects(s, id)
    ensures Onward(s, id).b == s.b
  {
  }

  /** A failed save loses every acknowledged chunk: the receiver starts over, the sender does not know. */
  lemma FailedSaveLoses(L: Limits, s: Sys, id: Id, n: nat, env: Env)
    requires id in s.a.out && id in s.b.inc && n in s.b.saving && s.b.saving[n].id == id && s.b.inc[id].serial == n
    ensures var t := Apply(L, s, Event(false, SaveDone(n, false), env));
            Collects(t, id) && Lost(t, id) == s.a.out[id].acked
  {
    var t := Apply(L, s, Event(false, SaveDone(n, false), env));
    assert HeldSet(t.b.inc[id]) == {};
  }
}
