/** One payload is handed to `deliver` once: a property of a single engine, whatever its
    peer and the relay do to it. */
module TransferOnce {
  import opened Wrappers
  import opened Chunking
  import opened TransferRecords
  import opened TransferProtocol

  type Script = seq<(Act, Env)>

  ghost function EngineRun(L: Limits, acts: Script): Engine {
    if acts == [] then Idle() else
      var last := acts[|acts| - 1];
      Step(L, EngineRun(L, acts[..|acts| - 1]), last.0, last.1)
  }

  ghost predicate SavingAt(e: Engine, id: Id) { id in e.inc && e.inc[id].phase == Saving }

  /** The payload is with `deliver`, and `hasMessage` does not report it yet. */
  ghost predicate Unseen(e: Engine, id: Id) { SavingAt(e, id) && id !in e.stored }

  /** The events that interrupt a running `deliver`: a cancel, forget, clear or storage refusal that
      drops a record whose message is not visible yet, or a deliver call of a live record that fails. */
  ghost predicate Interrupts(e: Engine, act: Act) {
    match act
    case Receive(Cancel(id)) => Unseen(e, id)
    case StorageRefused(id) => Unseen(e, id)
    case CancelByUser(id) => Unseen(e, id)
    case Forget(id) => Unseen(e, id)
    case Clear => exists id :: Unseen(e, id)
    case SaveDone(s, ok) => !ok && s in e.saving && e.saving[s].id in e.inc && e.inc[e.saving[s].id].serial == s
    case _ => false
  }

  ghost predicate Handed(e: Engine, id: Id) { exists k :: 0 <= k < |e.handed| && e.handed[k].0 == id }

  ghost predicate HandedOnce(e: Engine) {
    forall j, k :: 0 <= j < k < |e.handed| ==> e.handed[j].0 != e.handed[k].0
  }

  /** Serials are used once, and a deliver call has the serial and the id of its record. */
  ghost predicate SerialsOk(e: Engine) {
    && (forall id :: id in e.inc ==> e.inc[id].serial < e.nextSerial)
    && (forall i, j :: i in e.inc && j in e.inc && e.inc[i].serial == e.inc[j].serial ==> i == j)
    && (forall s :: s in e.saving ==> s < e.nextSerial)
    && (forall s, id :: s in e.saving && id in e.inc && e.inc[id].serial == s ==> e.saving[s].id == id)
    && (forall s, t :: s in e.saving && t in e.saving && e.saving[s].id == e.saving[t].id ==> s == t)
  }

  /** Every deliver call whose message is not visible yet belongs to the live record of its id. */
  ghost predicate SavesLive(e: Engine) {
    && (forall s :: s in e.saving && !e.saving[s].visible ==>
                      Unseen(e, e.saving[s].id) && e.inc[e.saving[s].id].serial == s)
    && (forall s :: s in e.saving && e.saving[s].visible ==> e.saving[s].id in e.stored)
    && (forall id :: SavingAt(e, id) ==> e.inc[id].serial in e.saving && e.saving[e.inc[id].serial].id == id)
  }

  /** An id already handed over is stored or being saved, and is not being collected again. */
  ghost predicate HandedOk(e: Engine) {
    && HandedOnce(e)
    && (forall id :: id in e.inc && e.inc[id].phase != Saving ==> id !in e.stored && !Handed(e, id))
    && (forall id :: Handed(e, id) ==> id in e.stored || SavingAt(e, id))
    && (forall s :: s in e.saving ==> Handed(e, e.saving[s].id))
  }

  ghost predicate OnceInv(e: Engine) { SerialsOk(e) && SavesLive(e) && HandedOk(e) }

  /** Records that keep their serials and phases, and nothing else the invariant reads. */
  ghost predicate SameSaves(e: Engine, e': Engine) {
    && e'.stored == e.stored && e'.saving == e.saving && e'.handed == e.handed && e'.nextSerial == e.nextSerial
    && (forall id :: id in e'.inc ==> id in e.inc && e'.inc[id].serial == e.inc[id].serial &&
                                      (e'.inc[id].phase == Saving <==> e.inc[id].phase == Saving))
    && (forall id :: Unseen(e, id) ==> id in e'.inc)
  }

  lemma SameSerials(e: Engine, e': Engine)
    requires SerialsOk(e) && SameSaves(e, e')
    ensures SerialsOk(e')
  {
    hide SavingAt;
  }

  lemma SameLive(e: Engine, e': Engine)
    requires SavesLive(e) && SameSaves(e, e')
    ensures SavesLive(e')
  {
  }

  lemma SameHanded(e: Engine, e': Engine)
    requires HandedOk(e) && SameSaves(e, e')
    ensures HandedOk(e')
  {
    assert forall id :: Handed(e', id) <==> Handed(e, id);
    hide Handed;
  }

  lemma SameSavesKeep(e: Engine, e': Engine)
    requires OnceInv(e) && SameSaves(e, e')
    ensures OnceInv(e')
  {
    hide SerialsOk, SavesLive, HandedOk, SameSaves;
    SameSerials(e, e');
    SameLive(e, e');
    SameHanded(e, e');
  }

  lemma InStepSaves(L: Limits, i: Incoming, ev: InEvent, env: Env)
    ensures i.phase != Collecting ==> InStep(L, i, ev, env).Some?
    ensures InStep(L, i, ev, env).Some? ==>
              InStep(L, i, ev, env).value.serial == i.serial && InStep(L, i, ev, env).value.phase == i.phase
  {
  }

  lemma AtAllInSaves(L: Limits, e: Engine, ev: InEvent, env: Env)
    ensures SameSaves(e, AtAllIn(L, e, ev, env))
  {
    hide InStep, AsksResend;
    forall i: Incoming
      ensures i.phase != Collecting ==> InStep(L, i, ev, env).Some?
      ensures InStep(L, i, ev, env).Some? ==>
                InStep(L, i, ev, env).value.serial == i.serial && InStep(L, i, ev, env).value.phase == i.phase
    {
      InStepSaves(L, i, ev, env);
    }
    var e' := AtAllIn(L, e, ev, env);
    forall id | id in e'.inc
      ensures id in e.inc && e'.inc[id].serial == e.inc[id].serial && e'.inc[id].phase == e.inc[id].phase
    {
      assert InStep(L, e.inc[id], ev, env).Some?;
    }
  }

  lemma SameSavesChain(a: Engine, b: Engine, c: Engine)
    requires SameSaves(a, b) && SameSaves(b, c)
    ensures SameSaves(a, c)
  {
  }

  lemma BroadcastSaves(L: Limits, e: Engine, oe: OutEvent, ie: InEvent, env: Env)
    ensures SameSaves(e, AtAllIn(L, AtAllOut(L, e, oe, env), ie, env))
  {
    hide OutStep, OutMsgs;
    AtAllInSaves(L, AtAllOut(L, e, oe, env), ie, env);
    hide AtAllIn;
    SameSavesChain(e, AtAllOut(L, e, oe, env), AtAllIn(L, AtAllOut(L, e, oe, env), ie, env));
  }

  lemma AtInSaves(L: Limits, e: Engine, id: Id, ev: InEvent, env: Env)
    requires id in e.inc
    ensures SameSaves(e, AtIn(L, e, id, e.inc[id], ev, env))
  {
  }

  /** A record opened under a new serial, for an id neither known nor stored. */
  lemma OpenSerials(e: Engine, e': Engine, id: Id)
    requires SerialsOk(e) && id !in e.inc && id in e'.inc && e'.inc[id].serial == e.nextSerial
    requires e'.nextSerial == e.nextSerial + 1 && e'.saving == e.saving && e'.inc == e.inc[id := e'.inc[id]]
    ensures SerialsOk(e')
  {
  }

  lemma OpenLive(e: Engine, e': Engine, id: Id)
    requires SavesLive(e) && id !in e.inc && id in e'.inc && e'.inc[id].phase != Saving
    requires e'.saving == e.saving && e'.stored == e.stored && e'.inc == e.inc[id := e'.inc[id]]
    ensures SavesLive(e')
  {
    assert forall j :: SavingAt(e', j) <==> SavingAt(e, j);
  }

  lemma OpenHanded(e: Engine, e': Engine, id: Id)
    requires HandedOk(e) && id !in e.inc && id !in e.stored && id in e'.inc && e'.inc[id].phase != Saving
    requires e'.saving == e.saving && e'.stored == e.stored && e'.handed == e.handed && e'.inc == e.inc[id := e'.inc[id]]
    ensures HandedOk(e')
  {
    assert forall j :: Handed(e', j) <==> Handed(e, j);
    assert forall j :: SavingAt(e', j) <==> SavingAt(e, j);
  }

  lemma OpenOnce(e: Engine, e': Engine, id: Id)
    requires OnceInv(e) && id !in e.inc && id !in e.stored && id in e'.inc
    requires e'.inc[id].serial == e.nextSerial && e'.inc[id].phase != Saving
    requires e'.nextSerial == e.nextSerial + 1 && e'.saving == e.saving && e'.stored == e.stored && e'.handed == e.handed
    requires e'.inc == e.inc[id := e'.inc[id]]
    ensures OnceInv(e')
  {
    hide SerialsOk, SavesLive, HandedOk;
    OpenSerials(e, e', id);
    OpenLive(e, e', id);
    OpenHanded(e, e', id);
  }

  /** Storing a part changes neither serial nor whether the record is being saved. */
  lemma AcceptShape(L: Limits, e: Engine, i: Incoming, c: Msg, env: Env)
    requires c.Chunk?
    ensures var e' := AcceptChunk(L, e, i, c, env);
            && e'.stored == e.stored && e'.saving == e.saving && e'.handed == e.handed && e'.nextSerial == e.nextSerial
            && (e'.inc == e.inc ||
                (c.id in e'.inc && e'.inc == e.inc[c.id := e'.inc[c.id]] && e'.inc[c.id].serial == i.serial &&
                 (e'.inc[c.id].phase == Saving <==> i.phase == Saving)))
  {
    hide Held, SameHeader;
  }

  lemma ChunkOnce(L: Limits, e: Engine, c: Msg, env: Env)
    requires c.Chunk? && OnceInv(e)
    ensures OnceInv(HandleChunk(L, e, c, env))
  {
    hide Busy, OnceInv, AcceptChunk;
    var e' := HandleChunk(L, e, c, env);
    if c.id in e.inc {
      AcceptShape(L, e, e.inc[c.id], c, env);
      SameSavesKeep(e, e');
    } else if c.id in e.out || c.id in e.stored || Busy(L, e, c) {
      SameSavesKeep(e, e');
    } else {
      var e1 := e.(nextSerial := e.nextSerial + 1);
      AcceptShape(L, e1, NewIncoming(c.header, c.total, env.now, e.nextSerial), c, env);
      if c.id in e'.inc {
        OpenOnce(e, e', c.id);
      } else {
        NoOpen(e, e1);
        SameSavesKeep(e1, e');
      }
    }
  }

  /** A serial used up without a record. */
  lemma NoOpen(e: Engine, e': Engine)
    requires OnceInv(e) && e' == e.(nextSerial := e.nextSerial + 1)
    ensures OnceInv(e')
  {
  }

  function HandedOver(e: Engine, id: Id, d: Bytes): Engine
    requires id in e.inc
  {
    var i := e.inc[id];
    e.(inc := e.inc[id := i.(phase := Saving)],
       saving := e.saving[i.serial := Save(id, d, i.total, false)],
       handed := e.handed + [(id, d)])
  }

  /** A record whose digest matched goes to `deliver`, under a serial and an id no other call has. */
  lemma HandOverIsNew(e: Engine, id: Id)
    requires OnceInv(e) && id in e.inc && e.inc[id].phase == Hashing
    ensures e.inc[id].serial !in e.saving && id !in e.stored && forall s :: s in e.saving ==> e.saving[s].id != id
  {
    hide HandedOnce, Handed;
    assert forall s :: s in e.saving && e.saving[s].visible ==> e.saving[s].id in e.stored;
  }

  lemma HandOverSerials(e: Engine, id: Id, d: Bytes)
    requires SerialsOk(e) && id in e.inc
    requires e.inc[id].serial !in e.saving && forall s :: s in e.saving ==> e.saving[s].id != id
    ensures SerialsOk(HandedOver(e, id, d))
  {
    var e' := HandedOver(e, id, d);
    assert forall j :: j in e'.inc <==> j in e.inc;
    assert forall j :: j in e.inc ==> e'.inc[j].serial == e.inc[j].serial;
  }

  lemma HandOverLive(e: Engine, id: Id, d: Bytes)
    requires SerialsOk(e) && SavesLive(e) && id in e.inc && e.inc[id].phase == Hashing && id !in e.stored
    requires e.inc[id].serial !in e.saving && forall s :: s in e.saving ==> e.saving[s].id != id
    ensures SavesLive(HandedOver(e, id, d))
  {
    var e', n := HandedOver(e, id, d), e.inc[id].serial;
    forall j | SavingAt(e', j) ensures e'.inc[j].serial in e'.saving && e'.saving[e'.inc[j].serial].id == j {
      if j != id { assert SavingAt(e, j) && e.inc[j].serial != n; }
    }
    forall s | s in e'.saving && !e'.saving[s].visible
      ensures Unseen(e', e'.saving[s].id) && e'.inc[e'.saving[s].id].serial == s
    {
      if s != n { assert s in e.saving && SavingAt(e, e.saving[s].id); }
    }
  }

  lemma HandOverOnce(e: Engine, id: Id, d: Bytes)
    requires HandedOk(e) && id in e.inc && e.inc[id].phase == Hashing
    ensures HandedOk(HandedOver(e, id, d))
  {
    var e' := HandedOver(e, id, d);
    assert e'.handed[|e.handed|].0 == id;
    forall j ensures Handed(e', j) <==> Handed(e, j) || j == id {
      if Handed(e, j) {
        var k :| 0 <= k < |e.handed| && e.handed[k].0 == j;
        assert e'.handed[k].0 == j;
      }
    }
  }

  /** A digest that resolves hands the payload over or changes nothing that was saved. */
  lemma HashShape(e: Engine, id: Id, env: Env)
    ensures var e' := HashResolved(e, id, env);
            || SameSaves(e, e')
            || (id in e.inc && e.inc[id].phase == Hashing && e' == HandedOver(e, id, Flatten(Payloads(e.inc[id].parts))))
  {
    hide Flatten, Payloads, Held, EmptyParts;
    if id in e.inc { EmptyKeeps(e.inc[id]); }
  }

  lemma EmptyKeeps(i: Incoming)
    ensures EmptyParts(i).serial == i.serial && EmptyParts(i).phase == Collecting
  {
  }

  lemma HandOver(e: Engine, id: Id, d: Bytes)
    requires OnceInv(e) && id in e.inc && e.inc[id].phase == Hashing
    ensures OnceInv(HandedOver(e, id, d))
  {
    HandOverIsNew(e, id);
    hide SerialsOk, SavesLive, HandedOk, HandedOver;
    HandOverSerials(e, id, d);
    HandOverLive(e, id, d);
    HandOverOnce(e, id, d);
  }

  lemma HashOnce(e: Engine, id: Id, env: Env)
    requires OnceInv(e)
    ensures OnceInv(HashResolved(e, id, env))
  {
    hide OnceInv, HashResolved, SameSaves, HandedOver, Flatten, Payloads;
    HashShape(e, id, env);
    var e' := HashResolved(e, id, env);
    if SameSaves(e, e') { SameSavesKeep(e, e'); } else { HandOver(e, id, Flatten(Payloads(e.inc[id].parts))); }
  }

  lemma ShowSerials(e: Engine, s: nat)
    requires SerialsOk(e) && s in e.saving
    ensures SerialsOk(SaveShows(e, s))
  {
  }

  lemma ShowLive(e: Engine, s: nat)
    requires SerialsOk(e) && SavesLive(e) && s in e.saving
    ensures SavesLive(SaveShows(e, s))
  {
    var e' := SaveShows(e, s);
    assert forall t :: t in e.saving && t != s ==> e'.saving[t] == e.saving[t] && e.saving[t].id != e.saving[s].id;
    hide SerialsOk;
    ShowKeepsHidden(e, e', s);
    ShowKeepsRest(e, e', s);
    hide Unseen, SavingAt;
  }

  lemma ShowKeepsHidden(e: Engine, e': Engine, s: nat)
    requires SavesLive(e) && s in e.saving && e' == SaveShows(e, s)
    requires forall t :: t in e.saving && t != s ==> e.saving[t].id != e.saving[s].id
    ensures forall t :: t in e'.saving && !e'.saving[t].visible ==>
                          Unseen(e', e'.saving[t].id) && e'.inc[e'.saving[t].id].serial == t
  {
    forall t | t in e'.saving && !e'.saving[t].visible
      ensures Unseen(e', e'.saving[t].id) && e'.inc[e'.saving[t].id].serial == t
    {
      assert t != s && t in e.saving && Unseen(e, e.saving[t].id);
    }
  }

  lemma ShowKeepsRest(e: Engine, e': Engine, s: nat)
    requires SavesLive(e) && s in e.saving && e' == SaveShows(e, s)
    ensures forall t :: t in e'.saving && e'.saving[t].visible ==> e'.saving[t].id in e'.stored
    ensures forall id :: SavingAt(e', id) ==> e'.inc[id].serial in e'.saving && e'.saving[e'.inc[id].serial].id == id
  {
    assert forall j :: SavingAt(e', j) <==> SavingAt(e, j);
    hide SavingAt, Unseen;
  }

  lemma ShowHands(e: Engine, s: nat)
    requires HandedOk(e) && SavesLive(e) && s in e.saving
    ensures HandedOk(SaveShows(e, s))
  {
    var e' := SaveShows(e, s);
    assert forall j :: Handed(e', j) <==> Handed(e, j);
    assert forall j :: SavingAt(e', j) <==> SavingAt(e, j);
    hide Handed, HandedOnce;
  }

  lemma ShowOnce(e: Engine, s: nat)
    requires OnceInv(e) && s in e.saving
    ensures OnceInv(SaveShows(e, s))
  {
    hide SerialsOk, SavesLive, HandedOk, SaveShows;
    ShowSerials(e, s);
    ShowLive(e, s);
    ShowHands(e, s);
  }

  lemma SettleSerials(e: Engine, e': Engine, s: nat)
    requires SerialsOk(e) && e'.inc.Keys <= e.inc.Keys && e'.saving == e.saving - {s} && e'.nextSerial == e.nextSerial
    requires forall j :: j in e'.inc ==> e'.inc[j] == e.inc[j]
    ensures SerialsOk(e')
  {
  }

  lemma SettleLive(e: Engine, s: nat, env: Env)
    requires SerialsOk(e) && SavesLive(e) && s in e.saving && e.saving[s].visible
    ensures SavesLive(SaveSettles(e, s, true, env))
  {
    hide Upto;
    var e' := SaveSettles(e, s, true, env);
    assert e'.stored == e.stored && e'.saving == e.saving - {s} && e'.inc == e.inc - {e.saving[s].id};
    assert forall t :: t in e'.saving ==> e.saving[t].id != e.saving[s].id;
    hide SerialsOk, SaveSettles;
    SettledLive(e, e', s);
  }

  lemma SettledLive(e: Engine, e': Engine, s: nat)
    requires SavesLive(e) && s in e.saving && e.saving[s].visible
    requires e'.stored == e.stored && e'.saving == e.saving - {s} && e'.inc == e.inc - {e.saving[s].id}
    requires forall t :: t in e'.saving ==> e.saving[t].id != e.saving[s].id
    ensures SavesLive(e')
  {
    forall t | t in e'.saving && !e'.saving[t].visible
      ensures Unseen(e', e'.saving[t].id) && e'.inc[e'.saving[t].id].serial == t
    {
      assert t in e.saving && Unseen(e, e.saving[t].id);
    }
    forall j | SavingAt(e', j) ensures e'.inc[j].serial in e'.saving && e'.saving[e'.inc[j].serial].id == j {
      assert SavingAt(e, j);
    }
  }

  lemma SettleHands(e: Engine, s: nat, env: Env)
    requires SavesLive(e) && HandedOk(e) && s in e.saving && e.saving[s].visible
    ensures HandedOk(SaveSettles(e, s, true, env))
  {
    hide Upto;
    var e' := SaveSettles(e, s, true, env);
    assert forall j :: Handed(e', j) <==> Handed(e, j);
    assert forall j :: SavingAt(e', j) <==> SavingAt(e, j) && j != e.saving[s].id;
    hide Handed, HandedOnce;
  }

  lemma SettleOnce(e: Engine, s: nat, env: Env)
    requires OnceInv(e) && s in e.saving && e.saving[s].visible
    ensures OnceInv(SaveSettles(e, s, true, env))
  {
    SettleLive(e, s, env);
    SettleHands(e, s, env);
    hide SerialsOk, SavesLive, HandedOk, Upto;
    SettleSerials(e, SaveSettles(e, s, true, env), s);
  }

  /** A visible save that fails after its record is gone. */
  lemma OrphanFails(e: Engine, s: nat, env: Env)
    requires OnceInv(e) && s in e.saving && !Interrupts(e, SaveDone(s, false))
    ensures OnceInv(SaveSettles(e, s, false, env))
  {
    var e' := SaveSettles(e, s, false, env);
    assert e' == e.(saving := e.saving - {s});
    OrphanSaves(e, s);
    OrphanHands(e, e', s);
    hide SavesLive, HandedOk;
    SettleSerials(e, e', s);
  }

  lemma OrphanSaves(e: Engine, s: nat)
    requires SerialsOk(e) && SavesLive(e) && s in e.saving && !Interrupts(e, SaveDone(s, false))
    ensures SavesLive(e.(saving := e.saving - {s}))
  {
    assert forall j :: SavingAt(e.(saving := e.saving - {s}), j) <==> SavingAt(e, j);
  }

  lemma OrphanHands(e: Engine, e': Engine, s: nat)
    requires HandedOk(e) && e' == e.(saving := e.saving - {s})
    ensures HandedOk(e')
  {
    assert forall j :: Handed(e', j) <==> Handed(e, j);
    assert forall j :: SavingAt(e', j) <==> SavingAt(e, j);
    hide Handed, HandedOnce;
  }

  /** Dropping a record, unless its message is with `deliver` and not visible yet. */
  lemma DropSaves(e: Engine, e': Engine, id: Id)
    requires OnceInv(e) && !Unseen(e, id)
    requires e'.inc == e.inc - {id} && e'.stored == e.stored && e'.saving == e.saving && e'.handed == e.handed
    requires e'.nextSerial == e.nextSerial
    ensures OnceInv(e')
  {
    hide OnceInv;
    SameSavesKeep(e, e');
  }

  lemma ReceiveOnce(L: Limits, e: Engine, m: Msg, env: Env)
    requires OnceInv(e) && !Interrupts(e, Receive(m))
    ensures OnceInv(Step(L, e, Receive(m), env))
  {
    hide OutStep, OutMsgs, AtIn, HandleChunk, Decodes, OnceInv;
    var e' := Step(L, e, Receive(m), env);
    if m.Chunk? { ChunkOnce(L, e, m, env); }
    if m.Query? {
      if m.id in e.inc { AtInSaves(L, e, m.id, PeerAsked, env); }
      SameSavesKeep(e, e');
    }
    if m.Ack? { SameSavesKeep(e, e'); }
    if m.Cancel? && Decodes(m) { DropSaves(e, e', m.id); }
  }

  lemma OnceStep(L: Limits, e: Engine, act: Act, env: Env)
    requires OnceInv(e) && !Interrupts(e, act)
    ensures OnceInv(Step(L, e, act, env))
  {
    hide OutStep, OutMsgs, InStep, AtAllOut, AtAllIn, AtIn, HandleChunk, HandleAck, HandleQuery, HandleCancel,
         HashResolved, Decodes, OnceInv;
    var e' := Step(L, e, act, env);
    match act {
      case Receive(m) => ReceiveOnce(L, e, m, env);
      case HashDone(id) => HashOnce(e, id, env);
      case SaveVisible(s) => if s in e.saving { ShowOnce(e, s); }
      case SaveDone(s, ok) =>
        if s in e.saving && !ok { OrphanFails(e, s, env); }
        if s in e.saving && ok && e.saving[s].visible { SettleOnce(e, s, env); }
      case OnConnected => BroadcastSaves(L, e, Connected, LinkUp, env); SameSavesKeep(e, e');
      case OnDisconnected => BroadcastSaves(L, e, Disconnected, LinkDown, env); SameSavesKeep(e, e');
      case TimerTick => BroadcastSaves(L, e, Ticked, Tick, env); SameSavesKeep(e, e');
      case Retry(id) => RetryOnce(L, e, id, env);
      case StorageRefused(id) => if id in e.inc { DropSaves(e, e', id); }
      case CancelByUser(id) => if id in e.out || id in e.inc { DropSaves(e, e', id); }
      case Forget(id) => DropSaves(e, e', id);
      case Clear => SameSavesKeep(e, e');
      case Begin(id, p, resume) => SameSavesKeep(e, e');
      case PumpReturns(id, k, ok) => SameSavesKeep(e, e');
    }
  }

  lemma RetryOnce(L: Limits, e: Engine, id: Id, env: Env)
    requires OnceInv(e)
    ensures OnceInv(Step(L, e, Retry(id), env))
  {
    hide OutStep, OutMsgs, AtIn, OnceInv;
    if id in e.inc {
      var e1 := if id in e.out then AtOut(L, e, id, e.out[id], Retried, env) else e;
      AtInSaves(L, e1, id, UserRetry, env);
      SameSavesChain(e, e1, Step(L, e, Retry(id), env));
    }
    SameSavesKeep(e, Step(L, e, Retry(id), env));
  }

  ghost predicate Uninterrupted(L: Limits, acts: Script) {
    forall k :: 0 <= k < |acts| ==> !Interrupts(EngineRun(L, acts[..k]), acts[k].0)
  }

  lemma {:induction false} RunOnce(L: Limits, acts: Script)
    requires Uninterrupted(L, acts)
    ensures OnceInv(EngineRun(L, acts))
    decreases |acts|
  {
    hide Step, OnceInv, Interrupts;
    if acts == [] {
      IdleOnce();
    } else {
      var k := |acts| - 1;
      assert forall j :: 0 <= j < k ==> acts[..k][..j] == acts[..j];
      RunOnce(L, acts[..k]);
      OnceStep(L, EngineRun(L, acts[..k]), acts[k].0, acts[k].1);
    }
  }

  lemma IdleOnce()
    ensures OnceInv(Idle())
  {
  }

  /** As long as nothing interrupts a running `deliver`, no id is handed to it twice,
      whatever messages arrive. */
  lemma DeliveredAtMostOnce(L: Limits, acts: Script)
    requires Uninterrupted(L, acts)
    ensures HandedOnce(EngineRun(L, acts))
  {
    RunOnce(L, acts);
    hide EngineRun;
  }

  // ---- The corruption counter ---------------------------------------------

  ghost predicate HashesAreFirst(e: Engine) {
    forall id :: id in e.inc && e.inc[id].phase == Hashing ==> e.inc[id].attempts == 0
  }

  lemma ChunkFirst(L: Limits, e: Engine, c: Msg, env: Env)
    requires c.Chunk? && HashesAreFirst(e)
    ensures HashesAreFirst(HandleChunk(L, e, c, env))
  {
    hide Busy, Held, AckDue, SameHeader;
  }

  lemma ReceiveFirst(L: Limits, e: Engine, m: Msg, env: Env)
    requires HashesAreFirst(e)
    ensures HashesAreFirst(Step(L, e, Receive(m), env))
  {
    hide OutStep, Queries, HandleChunk, Decodes, Held, AsksResend;
    if m.Chunk? { ChunkFirst(L, e, m, env); }
  }

  lemma EveryRecordFirst(L: Limits, e: Engine, act: Act, env: Env)
    requires HashesAreFirst(e) && (act.OnConnected? || act.OnDisconnected? || act.TimerTick?)
    ensures HashesAreFirst(Step(L, e, act, env))
  {
  }

  lemma OneRecordFirst(L: Limits, e: Engine, act: Act, env: Env)
    requires HashesAreFirst(e) && !act.Receive? && !act.OnConnected? && !act.OnDisconnected? && !act.TimerTick?
    ensures HashesAreFirst(Step(L, e, act, env))
  {
  }

  lemma HashesAreFirstStep(L: Limits, e: Engine, act: Act, env: Env)
    requires HashesAreFirst(e)
    ensures HashesAreFirst(Step(L, e, act, env))
  {
    hide HashesAreFirst, Step;
    match act {
      case Receive(m) => ReceiveFirst(L, e, m, env);
      case OnConnected => EveryRecordFirst(L, e, act, env);
      case OnDisconnected => EveryRecordFirst(L, e, act, env);
      case TimerTick => EveryRecordFirst(L, e, act, env);
      case _ => OneRecordFirst(L, e, act, env);
    }
  }

  lemma {:induction false} RunHashesAreFirst(L: Limits, acts: Script)
    ensures HashesAreFirst(EngineRun(L, acts))
    decreases |acts|
  {
    hide Step;
    if acts != [] {
      var k := |acts| - 1;
      RunHashesAreFirst(L, acts[..k]);
      HashesAreFirstStep(L, EngineRun(L, acts[..k]), acts[k].0, acts[k].1);
    }
  }

  /** The third-corruption cancel is never reached: each stored part resets the counter, so
      in every run, whatever arrives, a failed digest check starts the record over. */
  lemma CorruptionAlwaysRestarts(L: Limits, acts: Script, id: Id, env: Env)
    requires var e := EngineRun(L, acts); id in e.inc && e.inc[id].phase == Hashing
    ensures var e := EngineRun(L, acts);
            var r := HashResolved(e, id, env);
            && id in r.inc
            && (r.inc[id].phase == Saving || (r.inc[id].received == 0 && r.sent == e.sent + {AckFor(id, r.inc[id], true)}))
  {
    RunHashesAreFirst(L, acts);
    hide EngineRun, Flatten, Payloads, Held;
  }
}
