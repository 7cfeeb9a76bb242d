/** Whole runs of two engines joined by the relay. */
module TransferRuns {
  import opened Wrappers
  import opened Chunking
  import opened TransferRecords
  import opened TransferHeld
  import opened TransferSender
  import opened TransferProtocol
  import opened TransferSafety

  datatype Sys = Sys(a: Engine, b: Engine)
  datatype Event = Event(atA: bool, act: Act, env: Env)

  function Init(): Sys { Sys(Idle(), Idle()) }

  ghost function Apply(L: Limits, s: Sys, ev: Event): Sys {
    if ev.atA then s.(a := Step(L, s.a, ev.act, ev.env)) else s.(b := Step(L, s.b, ev.act, ev.env))
  }

  /** An engine receives only what its peer has sent, any number of times and in any order,
      and sends only what its own catalog holds. Everything else is free. */
  ghost predicate Possible(s: Sys, ev: Event, ca: Catalog, cb: Catalog) {
    var other := if ev.atA then s.b else s.a;
    var mine := if ev.atA then ca else cb;
    match ev.act
    case Receive(m) => m in other.sent
    case Begin(id, p, _) => id in mine && mine[id] == p
    case _ => true
  }

  ghost function Run(L: Limits, evs: seq<Event>): Sys {
    if evs == [] then Init() else Apply(L, Run(L, evs[..|evs| - 1]), evs[|evs| - 1])
  }

  ghost predicate Legal(L: Limits, evs: seq<Event>, ca: Catalog, cb: Catalog) {
    evs != [] ==>
      Legal(L, evs[..|evs| - 1], ca, cb) && Possible(Run(L, evs[..|evs| - 1]), evs[|evs| - 1], ca, cb)
  }

  // ---- Integrity and soundness of `done` ----------------------------------

  lemma StoredStays(L: Limits, y: Engine, act: Act, env: Env, id: Id)
    requires id in y.stored
    ensures id in Step(L, y, act, env).stored
  {
    hide OutStep, Queries, InStep, AsksResend, Decodes, Busy, AckDue, StorePart, Flatten, Payloads, Upto, Held;
  }

  lemma ReceiveConfirms(L: Limits, x: Engine, m: Msg, env: Env, id: Id)
    requires id in Step(L, x, Receive(m), env).confirmed && id !in x.confirmed
    ensures m.Ack? && m.done && m.id == id
  {
    hide OutStep, Queries, InStep, AsksResend, Decodes, Busy, AckDue, StorePart, SameHeader, OutMsgs;
  }

  lemma OthersDoNotConfirm(L: Limits, x: Engine, act: Act, env: Env)
    requires !act.Receive?
    ensures Step(L, x, act, env).confirmed == x.confirmed
  {
  }

  /** The sender confirms an id only on a done ack the peer has sent. */
  lemma ConfirmedStep(L: Limits, x: Engine, act: Act, env: Env, id: Id)
    requires id in Step(L, x, act, env).confirmed && id !in x.confirmed
    ensures act.Receive? && act.msg.Ack? && act.msg.done && act.msg.id == id
  {
    hide Step;
    if act.Receive? { ReceiveConfirms(L, x, act.msg, env, id); } else { OthersDoNotConfirm(L, x, act, env); }
  }

  lemma OneWayStep(L: Limits, x: Engine, y: Engine, act: Act, env: Env, cx: Catalog)
    requires CatalogOk(cx) && OneWay(L, x, y, cx)
    requires act.Begin? ==> act.id in cx && cx[act.id] == act.payload
    requires act.Receive? ==> act.msg in y.sent
    ensures OneWay(L, Step(L, x, act, env), y, cx)
  {
    SenderStep(L, x, act, env, cx);
    hide Step, SenderInv;
    forall id | id in Step(L, x, act, env).confirmed && id !in x.confirmed ensures id in y.stored {
      ConfirmedStep(L, x, act, env, id);
    }
  }

  lemma OtherWayStep(L: Limits, x: Engine, y: Engine, act: Act, env: Env, cx: Catalog)
    requires CatalogOk(cx) && OneWay(L, x, y, cx)
    requires act.Receive? ==> act.msg in x.sent
    ensures OneWay(L, x, Step(L, y, act, env), cx)
  {
    ReceiverStep(L, y, act, env, cx);
    hide Step, ReceiverInv;
    forall id | id in x.confirmed ensures id in Step(L, y, act, env).stored {
      StoredStays(L, y, act, env, id);
    }
  }

  /** In every run both directions keep their invariant. */
  lemma {:induction false} RunsAreSound(L: Limits, evs: seq<Event>, ca: Catalog, cb: Catalog)
    requires CatalogOk(ca) && CatalogOk(cb) && Legal(L, evs, ca, cb)
    ensures OneWay(L, Run(L, evs).a, Run(L, evs).b, ca)
    ensures OneWay(L, Run(L, evs).b, Run(L, evs).a, cb)
    decreases |evs|
  {
    hide Step, OneWay;
    if evs == [] {
      assert OneWay(L, Idle(), Idle(), ca) && OneWay(L, Idle(), Idle(), cb) by { IdleIsSound(L, ca); IdleIsSound(L, cb); }
    } else {
      var k := |evs| - 1;
      RunsAreSound(L, evs[..k], ca, cb);
      var s := Run(L, evs[..k]);
      var ev := evs[k];
      if ev.atA {
        OneWayStep(L, s.a, s.b, ev.act, ev.env, ca);
        OtherWayStep(L, s.b, s.a, ev.act, ev.env, cb);
      } else {
        OneWayStep(L, s.b, s.a, ev.act, ev.env, cb);
        OtherWayStep(L, s.a, s.b, ev.act, ev.env, ca);
      }
    }
  }

  lemma IdleIsSound(L: Limits, c: Catalog)
    ensures OneWay(L, Idle(), Idle(), c)
  {
  }

  /** Integrity: whatever the relay did, a payload handed to `deliver` is the sender's. */
  lemma DeliveredIsGenuine(L: Limits, evs: seq<Event>, ca: Catalog, cb: Catalog, k: nat)
    requires CatalogOk(ca) && CatalogOk(cb) && Legal(L, evs, ca, cb)
    ensures k < |Run(L, evs).b.handed| ==>
              Run(L, evs).b.handed[k].0 in ca && Run(L, evs).b.handed[k].1 == ca[Run(L, evs).b.handed[k].0].data
    ensures k < |Run(L, evs).a.handed| ==>
              Run(L, evs).a.handed[k].0 in cb && Run(L, evs).a.handed[k].1 == cb[Run(L, evs).a.handed[k].0].data
  {
    RunsAreSound(L, evs, ca, cb);
    hide Run, Legal, SenderInv;
  }

  /** A sender told "delivered" can rely on it: the peer has stored exactly its bytes. */
  lemma ConfirmedIsStored(L: Limits, evs: seq<Event>, ca: Catalog, cb: Catalog, id: Id)
    requires CatalogOk(ca) && CatalogOk(cb) && Legal(L, evs, ca, cb)
    ensures id in Run(L, evs).a.confirmed ==> id in ca && id in Run(L, evs).b.stored && Run(L, evs).b.stored[id] == ca[id].data
    ensures id in Run(L, evs).b.confirmed ==> id in cb && id in Run(L, evs).a.stored && Run(L, evs).a.stored[id] == cb[id].data
  {
    RunsAreSound(L, evs, ca, cb);
    hide Run, Legal, SenderInv;
  }

  // ---- Soundness of acks --------------------------------------------------

  /** The receiver has part k of the payload, or has stored the payload. */
  ghost predicate Holds(y: Engine, id: Id, k: nat) {
    id in y.stored || (id in y.inc && k < |y.inc[id].parts| && y.inc[id].parts[k].Some?)
  }

  /** The events at the receiving side that throw held parts away. */
  ghost predicate Discards(L: Limits, y: Engine, act: Act, env: Env) {
    match act
    case Receive(Cancel(id)) => id in y.inc
    case StorageRefused(id) => id in y.inc
    case CancelByUser(id) => id in y.inc
    case Forget(id) => id in y.inc
    case Clear => y.inc != map[]
    case SaveDone(s, ok) => s in y.saving && !ok
    case TimerTick => exists id :: id in y.inc && InStep(L, y.inc[id], Tick, env).None?
    case _ => false
  }

  ghost predicate AcksHeld(x: Engine, y: Engine) {
    && (forall id, k :: id in x.out && k in x.out[id].acked ==> Holds(y, id, k))
    && (forall m, k :: m in y.sent && m.Ack? && k in m.have ==> Holds(y, m.id, k))
  }

  lemma {:induction false} PumpLoopAcked(L: Limits, o: Outgoing, canSend: bool)
    ensures PumpLoop(L, o, canSend).acked == o.acked
    decreases |o.queue|
  {
    if o.status == Active && o.queue != [] && |o.inFlight| < L.window {
      if o.queue[0] in o.acked || o.queue[0] in o.inFlight {
        PumpLoopAcked(L, o.(queue := o.queue[1..]), canSend);
      }
    }
  }

  /** Only an ack adds to `acked`, and only indices it lists. */
  lemma OutStepAcked(L: Limits, o: Outgoing, ev: OutEvent, env: Env)
    ensures forall k :: k in OutStep(L, o, ev, env).acked ==> k in o.acked || (ev.Acked? && k in ev.have)
  {
    match ev {
      case Started => PumpLoopAcked(L, o.(pumping := true), env.canSend);
      case Acked(have, resend) =>
        PumpLoopAcked(L, AbsorbAck(L, o, have, resend, env.now).(pumping := true), env.canSend);
      case SendResolved(k, ok) =>
        if k < |o.hands| {
          var o1 := o.(hands := o.hands[..k] + o.hands[k + 1..]);
          PumpLoopAcked(L, o1.(lastActivityAt := env.now,
            inFlight := if o.hands[k] in o1.acked then o1.inFlight else o1.inFlight[o.hands[k] := env.now]), env.canSend);
        }
      case Ticked => PumpLoopAcked(L, o.(pumping := true), env.canSend);
      case _ =>
    }
  }

  lemma AtOutAcked(L: Limits, x: Engine, at: Id, o: Outgoing, ev: OutEvent, env: Env, id: Id, k: nat)
    requires var x' := AtOut(L, x, at, o, ev, env); id in x'.out && k in x'.out[id].acked
    ensures (id != at && id in x.out && k in x.out[id].acked) || (id == at && k in o.acked) ||
            (id == at && ev.Acked? && k in ev.have)
  {
    OutStepAcked(L, o, ev, env);
    hide OutStep, OutMsgs;
  }

  lemma AtAllOutAcked(L: Limits, x: Engine, ev: OutEvent, env: Env, id: Id, k: nat)
    requires !ev.Acked?
    requires var x' := AtAllOut(L, x, ev, env); id in x'.out && k in x'.out[id].acked
    ensures id in x.out && k in x.out[id].acked
  {
    OutStepAcked(L, x.out[id], ev, env);
    hide OutStep, OutMsgs;
  }

  /** The sender's `acked` grows only by what a received ack lists. */
  lemma SenderAcked(L: Limits, x: Engine, act: Act, env: Env, id: Id, k: nat)
    requires id in Step(L, x, act, env).out && k in Step(L, x, act, env).out[id].acked
    ensures (id in x.out && k in x.out[id].acked) ||
            (act.Receive? && act.msg.Ack? && act.msg.id == id && k in act.msg.have)
  {
    hide AtOut, AtAllOut, Decodes, HashResolved, SaveSettles, AcceptChunk, Busy, InStep, InMsgs;
    match act {
      case Begin(at, p, resume) =>
        AtOutAcked(L, x, at, NewOutgoing(p.header, p.data, resume, env.now), if resume then Offered else Started, env, id, k);
      case PumpReturns(at, j, ok) => if at in x.out { AtOutAcked(L, x, at, x.out[at], SendResolved(j, ok), env, id, k); }
      case Receive(m) => ReceiveAcked(L, x, m, env, id, k);
      case Retry(at) => if at in x.out { AtOutAcked(L, x, at, x.out[at], Retried, env, id, k); }
      case OnConnected => AtAllOutAcked(L, x, Connected, env, id, k);
      case OnDisconnected => AtAllOutAcked(L, x, Disconnected, env, id, k);
      case TimerTick => AtAllOutAcked(L, x, Ticked, env, id, k);
      case _ => OutUntouched(L, x, act, env);
    }
  }

  lemma OutUntouched(L: Limits, x: Engine, act: Act, env: Env)
    requires act.HashDone? || act.SaveVisible? || act.SaveDone? || act.StorageRefused? ||
             act.CancelByUser? || act.Forget? || act.Clear?
    ensures forall id :: id in Step(L, x, act, env).out ==> id in x.out && Step(L, x, act, env).out[id] == x.out[id]
  {
  }

  lemma ReceiveAcked(L: Limits, x: Engine, m: Msg, env: Env, id: Id, k: nat)
    requires var x' := Step(L, x, Receive(m), env); id in x'.out && k in x'.out[id].acked
    ensures (id in x.out && k in x.out[id].acked) || (m.Ack? && m.id == id && k in m.have)
  {
    hide AtOut, Decodes, Busy, StorePart, InStep, InMsgs, Held, AckDue;
    if m.Ack? && m.id in x.out && !m.done && Decodes(m) {
      AtOutAcked(L, x, m.id, x.out[m.id], Acked(m.have, m.resend), env, id, k);
    }
    if m.Cancel? && m.id in x.out && Decodes(m) { AtOutAcked(L, x, m.id, x.out[m.id], Cancelled, env, id, k); }
  }

  /** What an event at the receiver must do to keep acks sound: lose nothing held, and list
      in new acks only what is held. */
  ghost predicate Faithful(y: Engine, y': Engine) {
    && (forall id, k :: Holds(y, id, k) ==> Holds(y', id, k))
    && (forall m, k :: m in y'.sent && m !in y.sent && m.Ack? && k in m.have ==> Holds(y', m.id, k))
  }

  lemma FaithfulChain(y: Engine, y1: Engine, y2: Engine)
    requires Faithful(y, y1) && Faithful(y1, y2)
    ensures Faithful(y, y2)
  {
  }

  lemma AcceptFaithful(L: Limits, e: Engine, i: Incoming, c: Msg, env: Env)
    requires c.Chunk?
    requires c.id in e.inc ==> e.inc[c.id] == i
    ensures Faithful(e, AcceptChunk(L, e, i, c, env))
  {
    if SameHeader(i.header, c.header) && i.total == c.total && c.index < |i.parts| && i.phase == Collecting && i.parts[c.index].None? {
      HeldIsExact(StorePart(i, c.index, c.data, env.now).parts);
    }
    hide Held;
  }

  lemma AtInFaithful(L: Limits, e: Engine, id: Id, ev: InEvent, env: Env)
    requires id in e.inc && InStep(L, e.inc[id], ev, env).Some?
    ensures Faithful(e, AtIn(L, e, id, e.inc[id], ev, env))
  {
    HeldIsExact(e.inc[id].parts);
    InStepParts(L, e.inc[id], ev, env);
    hide InStep, AsksResend, Held;
  }

  lemma InStepParts(L: Limits, i: Incoming, ev: InEvent, env: Env)
    ensures InStep(L, i, ev, env).Some? ==> InStep(L, i, ev, env).value.parts == i.parts
    ensures !ev.Tick? ==> InStep(L, i, ev, env).Some?
  {
  }

  lemma AtAllInFaithful(L: Limits, e: Engine, ev: InEvent, env: Env)
    requires forall id :: id in e.inc ==> InStep(L, e.inc[id], ev, env).Some?
    ensures Faithful(e, AtAllIn(L, e, ev, env))
  {
    hide InStep, AsksResend, Held;
    forall id | id in e.inc
      ensures InStep(L, e.inc[id], ev, env).value.parts == e.inc[id].parts
      ensures forall k :: k in Held(e.inc[id].parts) ==> Holds(e, id, k)
    {
      InStepParts(L, e.inc[id], ev, env);
      HeldIsExact(e.inc[id].parts);
    }
  }

  lemma SenderSideFaithful(L: Limits, e: Engine, ev: OutEvent, env: Env)
    ensures Faithful(e, AtAllOut(L, e, ev, env))
  {
  }

  lemma ReceiveFaithful(L: Limits, y: Engine, m: Msg, env: Env, cx: Catalog)
    requires ReceiverInv(y, cx) && !Discards(L, y, Receive(m), env)
    ensures Faithful(y, Step(L, y, Receive(m), env))
  {
    hide OutStep, Queries, AtIn, AcceptChunk, Busy, Decodes, ReceiverInv, Held;
    if m.Chunk? {
      if m.id in y.inc {
        AcceptFaithful(L, y, y.inc[m.id], m, env);
      } else {
        AcceptFaithful(L, y.(nextSerial := y.nextSerial + 1), NewIncoming(m.header, m.total, env.now, y.nextSerial), m, env);
      }
    }
    if m.Query? && m.id in y.inc {
      InStepParts(L, y.inc[m.id], PeerAsked, env);
      AtInFaithful(L, y, m.id, PeerAsked, env);
    }
  }

  lemma AtOutFaithful(L: Limits, e: Engine, id: Id, o: Outgoing, ev: OutEvent, env: Env)
    ensures Faithful(e, AtOut(L, e, id, o, ev, env))
  {
  }

  lemma RetryFaithful(L: Limits, y: Engine, id: Id, env: Env)
    ensures Faithful(y, Step(L, y, Retry(id), env))
  {
    var e1 := if id in y.out then AtOut(L, y, id, y.out[id], Retried, env) else y;
    if id in y.out { AtOutFaithful(L, y, id, y.out[id], Retried, env); }
    hide OutStep, OutMsgs, AtIn, Holds;
    if id in e1.inc {
      InStepParts(L, y.inc[id], UserRetry, env);
      AtInFaithful(L, e1, id, UserRetry, env);
      FaithfulChain(y, e1, AtIn(L, e1, id, e1.inc[id], UserRetry, env));
    }
  }

  lemma SenderActsFaithful(L: Limits, y: Engine, act: Act, env: Env)
    requires act.Begin? || act.PumpReturns?
    ensures Faithful(y, Step(L, y, act, env))
  {
  }

  lemma NotHashing(y: Engine, id: Id, env: Env)
    requires id !in y.inc || y.inc[id].phase != Hashing
    ensures HashResolved(y, id, env) == y
  {
  }

  lemma HashFaithful(L: Limits, y: Engine, id: Id, env: Env, cx: Catalog)
    requires CatalogOk(cx) && ReceiverInv(y, cx)
    ensures Faithful(y, Step(L, y, HashDone(id), env))
  {
    hide Held, HashResolved, InMatches, ReceiverInv, CatalogOk;
    if id in y.inc && y.inc[id].phase == Hashing {
      HonestHashPasses(y, id, env, cx);
    } else {
      NotHashing(y, id, env);
    }
  }

  lemma ShownFaithful(L: Limits, y: Engine, s: nat, env: Env)
    ensures Faithful(y, Step(L, y, SaveVisible(s), env))
  {
  }

  lemma SavedFaithful(L: Limits, y: Engine, s: nat, ok: bool, env: Env, cx: Catalog)
    requires ReceiverInv(y, cx) && (s in y.saving ==> ok)
    ensures Faithful(y, Step(L, y, SaveDone(s, ok), env))
  {
  }

  lemma ReceiverFaithful(L: Limits, y: Engine, act: Act, env: Env, cx: Catalog)
    requires CatalogOk(cx) && ReceiverInv(y, cx) && !Discards(L, y, act, env)
    ensures Faithful(y, Step(L, y, act, env))
  {
    hide ReceiverInv, AtAllOut, AtAllIn, AtIn, HandleChunk, HandleAck, HandleCancel, HandleQuery, Decodes, HashResolved,
         SaveSettles, SaveShows, Start, AtOut;
    match act {
      case Begin(_, _, _) => SenderActsFaithful(L, y, act, env);
      case PumpReturns(_, _, _) => SenderActsFaithful(L, y, act, env);
      case Receive(m) => ReceiveFaithful(L, y, m, env, cx);
      case HashDone(id) => HashFaithful(L, y, id, env, cx);
      case SaveVisible(s) => ShownFaithful(L, y, s, env);
      case SaveDone(s, ok) => SavedFaithful(L, y, s, ok, env, cx);
      case OnConnected => BroadcastFaithful(L, y, Connected, LinkUp, env);
      case OnDisconnected => BroadcastFaithful(L, y, Disconnected, LinkDown, env);
      case Retry(id) => RetryFaithful(L, y, id, env);
      case TimerTick => BroadcastFaithful(L, y, Ticked, Tick, env);
      case _ =>
    }
  }

  lemma BroadcastFaithful(L: Limits, y: Engine, oe: OutEvent, ie: InEvent, env: Env)
    requires !ie.Tick? || forall id :: id in y.inc ==> InStep(L, y.inc[id], ie, env).Some?
    ensures Faithful(y, AtAllIn(L, AtAllOut(L, y, oe, env), ie, env))
  {
    hide OutStep, OutMsgs, InMsgs, Holds;
    SenderSideFaithful(L, y, oe, env);
    var y1 := AtAllOut(L, y, oe, env);
    forall id | id in y1.inc ensures InStep(L, y1.inc[id], ie, env).Some? {
      InStepParts(L, y.inc[id], ie, env);
    }
    AtAllInFaithful(L, y1, ie, env);
    FaithfulChain(y, y1, AtAllIn(L, y1, ie, env));
  }

  /** No event at either engine has the receiving side throw held parts away. */
  ghost predicate NothingDiscarded(L: Limits, evs: seq<Event>) {
    forall k :: 0 <= k < |evs| ==>
      var s := Run(L, evs[..k]);
      !Discards(L, if evs[k].atA then s.a else s.b, evs[k].act, evs[k].env)
  }

  lemma AcksStepSender(L: Limits, x: Engine, y: Engine, act: Act, env: Env)
    requires AcksHeld(x, y) && (act.Receive? ==> act.msg in y.sent)
    ensures AcksHeld(Step(L, x, act, env), y)
  {
    hide Step, Holds;
    var x' := Step(L, x, act, env);
    forall id, k | id in x'.out && k in x'.out[id].acked ensures Holds(y, id, k) {
      SenderAcked(L, x, act, env, id, k);
    }
  }

  lemma AcksStepReceiver(L: Limits, x: Engine, y: Engine, act: Act, env: Env, cx: Catalog)
    requires AcksHeld(x, y) && CatalogOk(cx) && ReceiverInv(y, cx) && !Discards(L, y, act, env)
    ensures AcksHeld(x, Step(L, y, act, env))
  {
    ReceiverFaithful(L, y, act, env, cx);
    hide Step, Holds, ReceiverInv, Discards;
  }

  /** In every run in which no held part is thrown away, every index the sender counts as
      acknowledged, and every index in any ack ever sent, is held or stored by the receiver. */
  lemma {:induction false} AcksAreSound(L: Limits, evs: seq<Event>, ca: Catalog, cb: Catalog)
    requires CatalogOk(ca) && CatalogOk(cb) && Legal(L, evs, ca, cb) && NothingDiscarded(L, evs)
    ensures AcksHeld(Run(L, evs).a, Run(L, evs).b) && AcksHeld(Run(L, evs).b, Run(L, evs).a)
    decreases |evs|
  {
    hide Step, AcksHeld, Discards, SenderInv, ReceiverInv;
    if evs == [] {
      NoAcksYet();
    } else {
      var k := |evs| - 1;
      assert forall j :: 0 <= j < k ==> evs[..k][..j] == evs[..j];
      AcksAreSound(L, evs[..k], ca, cb);
      RunsAreSound(L, evs[..k], ca, cb);
      var s := Run(L, evs[..k]);
      var ev := evs[k];
      if ev.atA {
        AcksStepSender(L, s.a, s.b, ev.act, ev.env);
        AcksStepReceiver(L, s.b, s.a, ev.act, ev.env, cb);
      } else {
        AcksStepSender(L, s.b, s.a, ev.act, ev.env);
        AcksStepReceiver(L, s.a, s.b, ev.act, ev.env, ca);
      }
    }
  }

  lemma NoAcksYet()
    ensures AcksHeld(Idle(), Idle())
  {
  }
}
