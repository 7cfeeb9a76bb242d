/** When a payload can reach `deliver` a second time: exactly after an interruption. */
module TransferRepeats {
  import opened Wrappers
  import opened Chunking
  import opened TransferRecords
  import opened TransferHeld
  import opened TransferProtocol
  import opened TransferSafety
  import opened TransferOnce

  ghost function Continue(L: Limits, e: Engine, more: Script): Engine
    decreases |more|
  {
    if more == [] then e else Continue(L, Step(L, e, more[0].0, more[0].1), more[1..])
  }

  /** No event of the continuation interrupts a `deliver`. */
  ghost predicate Quiet(L: Limits, e: Engine, more: Script)
    decreases |more|
  {
    more != [] ==> !Interrupts(e, more[0].0) && Quiet(L, Step(L, e, more[0].0, more[0].1), more[1..])
  }

  lemma {:induction false} QuietKeeps(L: Limits, e: Engine, more: Script)
    requires OnceInv(e) && Quiet(L, e, more)
    ensures HandedOnce(Continue(L, e, more))
    decreases |more|
  {
    hide Step, Interrupts;
    if more != [] {
      assert OnceInv(e);
      hide OnceInv;
      OnceStep(L, e, more[0].0, more[0].1);
      QuietKeeps(L, Step(L, e, more[0].0, more[0].1), more[1..]);
    }
  }

  lemma {:induction false} ContinueOn(L: Limits, e: Engine, xs: Script, ys: Script)
    requires Quiet(L, e, xs) && Quiet(L, Continue(L, e, xs), ys)
    ensures Quiet(L, e, xs + ys) && Continue(L, e, xs + ys) == Continue(L, Continue(L, e, xs), ys)
    decreases |xs|
  {
    hide Step, Interrupts;
    if xs == [] {
      assert xs + ys == ys;
    } else {
      assert (xs + ys)[1..] == xs[1..] + ys;
      ContinueOn(L, Step(L, e, xs[0].0, xs[0].1), xs[1..], ys);
    }
  }

  lemma ContinueOne(L: Limits, e: Engine, act: Act, env: Env)
    requires !Interrupts(e, act)
    ensures Quiet(L, e, [(act, env)]) && Continue(L, e, [(act, env)]) == Step(L, e, act, env)
  {
    hide Step, Interrupts;
    assert [(act, env)][1..] == [];
  }

  // ---- What every record is like ------------------------------------------

  /** The payload a record collects, read off its digest. */
  function Wanted(i: Incoming): Payload { Payload(i.header, i.header.sha256.preimage) }

  /** A record was admitted, has the announced number of places, and is being saved only
      if its digest matched. */
  ghost predicate RecordOk(L: Limits, i: Incoming) {
    && i.header.size <= MAX_TRANSFER_BYTES && i.header.size <= L.maxIncomingBytesPerRoom && L.maxIncomingPerRoom >= 1
    && i.total == |i.parts| == ChunkCount(i.header.size, CHUNK_BYTES)
    && (i.phase == Saving ==> Wanted(i).Ok())
  }

  ghost predicate RecordsOk(L: Limits, e: Engine) { forall id :: id in e.inc ==> RecordOk(L, e.inc[id]) }

  lemma InStepOk(L: Limits, i: Incoming, ev: InEvent, env: Env)
    requires RecordOk(L, i)
    ensures InStep(L, i, ev, env).Some? ==> RecordOk(L, InStep(L, i, ev, env).value)
  {
    hide ChunkCount;
  }

  lemma AcceptOk(L: Limits, e: Engine, i: Incoming, c: Msg, env: Env)
    requires c.Chunk? && RecordOk(L, i) && RecordsOk(L, e)
    ensures RecordsOk(L, AcceptChunk(L, e, i, c, env))
  {
    hide ChunkCount, Held, SameHeader;
  }

  lemma ChunkOk(L: Limits, e: Engine, c: Msg, env: Env)
    requires c.Chunk? && Decodes(c) && RecordsOk(L, e)
    ensures RecordsOk(L, HandleChunk(L, e, c, env))
  {
    hide AcceptChunk, ChunkCount, ChunkLength;
    if c.id in e.inc {
      AcceptOk(L, e, e.inc[c.id], c, env);
    } else if c.id !in e.out && c.id !in e.stored && !Busy(L, e, c) {
      AcceptOk(L, e.(nextSerial := e.nextSerial + 1), NewIncoming(c.header, c.total, env.now, e.nextSerial), c, env);
    }
  }

  lemma AtInOk(L: Limits, e: Engine, id: Id, ev: InEvent, env: Env)
    requires id in e.inc && RecordsOk(L, e)
    ensures RecordsOk(L, AtIn(L, e, id, e.inc[id], ev, env))
  {
    InStepOk(L, e.inc[id], ev, env);
    hide InStep, RecordOk;
  }

  lemma AtAllOk(L: Limits, e: Engine, oe: OutEvent, ie: InEvent, env: Env)
    requires RecordsOk(L, e)
    ensures RecordsOk(L, AtAllIn(L, AtAllOut(L, e, oe, env), ie, env))
  {
    forall i | RecordOk(L, i) && InStep(L, i, ie, env).Some? ensures RecordOk(L, InStep(L, i, ie, env).value) {
      InStepOk(L, i, ie, env);
    }
    hide InStep, RecordOk, OutStep, OutMsgs, InMsgs;
  }

  lemma HashOk(L: Limits, e: Engine, id: Id, env: Env)
    requires RecordsOk(L, e)
    ensures RecordsOk(L, HashResolved(e, id, env))
  {
    hide ChunkCount, Flatten, Payloads, Held;
  }

  lemma SettleOk(L: Limits, e: Engine, s: nat, ok: bool, env: Env)
    requires RecordsOk(L, e)
    ensures RecordsOk(L, SaveSettles(e, s, ok, env))
  {
    hide ChunkCount, Upto;
  }

  lemma RecordsOkStep(L: Limits, e: Engine, act: Act, env: Env)
    requires RecordsOk(L, e)
    ensures RecordsOk(L, Step(L, e, act, env))
  {
    hide OutStep, OutMsgs, AtAllOut, AtAllIn, AtIn, HandleChunk, HashResolved, SaveSettles, Decodes, RecordOk;
    match act {
      case Receive(m) =>
        if m.Chunk? && Decodes(m) { ChunkOk(L, e, m, env); }
        if m.Query? && m.id in e.inc { AtInOk(L, e, m.id, PeerAsked, env); }
      case HashDone(id) => HashOk(L, e, id, env);
      case SaveDone(s, ok) => SettleOk(L, e, s, ok, env);
      case OnConnected => AtAllOk(L, e, Connected, LinkUp, env);
      case OnDisconnected => AtAllOk(L, e, Disconnected, LinkDown, env);
      case TimerTick => AtAllOk(L, e, Ticked, Tick, env);
      case Retry(id) =>
        var e1 := if id in e.out then AtOut(L, e, id, e.out[id], Retried, env) else e;
        if id in e.inc { AtInOk(L, e1, id, UserRetry, env); }
      case _ =>
    }
  }

  lemma {:induction false} RunRecordsOk(L: Limits, acts: Script)
    ensures RecordsOk(L, EngineRun(L, acts))
    decreases |acts|
  {
    hide Step, RecordOk;
    if acts != [] {
      var k := |acts| - 1;
      RunRecordsOk(L, acts[..k]);
      RecordsOkStep(L, EngineRun(L, acts[..k]), acts[k].0, acts[k].1);
    }
  }

  // ---- Filling a record again ---------------------------------------------

  /** The chunks of a payload from number `k` on, and then the digest. */
  function Refill(id: Id, p: Payload, k: nat, env: Env): Script
    requires k <= ChunkCount(p.header.size, CHUNK_BYTES)
    decreases ChunkCount(p.header.size, CHUNK_BYTES) - k
  {
    var n := ChunkCount(p.header.size, CHUNK_BYTES);
    if k == n then [(HashDone(id), env)]
    else [(Receive(Chunk(id, k, n, p.header, Slice(p.data, CHUNK_BYTES, k))), env)] + Refill(id, p, k + 1, env)
  }

  /** A record that collects `p`, not yet handed over, and has its first `k` parts. */
  ghost predicate Filled(e: Engine, id: Id, p: Payload, k: nat) {
    && id in e.inc && InMatches(e.inc[id], p) && e.inc[id].phase != Saving && k <= |e.inc[id].parts|
    && forall j :: 0 <= j < k ==> e.inc[id].parts[j].Some?
  }

  lemma AcceptFills(L: Limits, e: Engine, i: Incoming, id: Id, p: Payload, k: nat, env: Env)
    requires InMatches(i, p) && i.phase != Saving && k < |i.parts| && forall j :: 0 <= j < k ==> i.parts[j].Some?
    ensures var c := Chunk(id, k, |i.parts|, p.header, Slice(p.data, CHUNK_BYTES, k));
            var r := AcceptChunk(L, e, i, c, env);
            Filled(r, id, p, k + 1) && r.handed == e.handed
  {
    var d := Slice(p.data, CHUNK_BYTES, k);
    StorePartMatches(i, k, d, env.now, p);
    var r := StorePart(i, k, d, env.now);
    assert SameHeader(i.header, p.header) && i.total == |i.parts|;
    SinceAckMatches(r, p);
    PartIsThere(i, k, d, env.now);
    hide Slice, ChunkCount, Held, InMatches, StorePart, SameHeader, AckDue;
  }

  lemma PartIsThere(i: Incoming, k: nat, d: Bytes, now: int)
    requires k < |i.parts| && i.received == |Held(i.parts)| && i.total == |i.parts|
    requires i.phase != Saving && (i.phase == Collecting <==> i.received < i.total)
    requires forall j :: 0 <= j < k ==> i.parts[j].Some?
    ensures var r := StorePart(i, k, d, now);
            r.phase != Saving && |r.parts| == |i.parts| && forall j :: 0 <= j < k + 1 ==> r.parts[j].Some?
    ensures i.phase != Collecting || i.parts[k].Some? ==> StorePart(i, k, d, now) == i
  {
    if i.phase == Hashing { FullIsAllHeld(i.parts); }
    hide Held;
  }

  lemma ChunkFills(L: Limits, e: Engine, id: Id, p: Payload, k: nat, env: Env)
    requires p.Ok() && Filled(e, id, p, k) && k < |e.inc[id].parts|
    ensures var c := Chunk(id, k, ChunkCount(p.header.size, CHUNK_BYTES), p.header, Slice(p.data, CHUNK_BYTES, k));
            var r := Step(L, e, Receive(c), env);
            Filled(r, id, p, k + 1) && r.handed == e.handed
  {
    var c := Chunk(id, k, ChunkCount(p.header.size, CHUNK_BYTES), p.header, Slice(p.data, CHUNK_BYTES, k));
    HonestChunkDecodes(c, p);
    AcceptFills(L, e, e.inc[id], id, p, k, env);
    assert |e.inc[id].parts| == ChunkCount(p.header.size, CHUNK_BYTES);
    hide Decodes, Slice, ChunkCount, AcceptChunk, InMatches;
  }

  lemma FilledIsHanded(L: Limits, e: Engine, id: Id, p: Payload, env: Env)
    requires p.Ok() && Filled(e, id, p, ChunkCount(p.header.size, CHUNK_BYTES))
    ensures Step(L, e, HashDone(id), env).handed == e.handed + [(id, p.data)]
  {
    FullIsAllHeld(e.inc[id].parts);
    FullRecordAssembles(e.inc[id], p);
    hide Flatten, Payloads, Held, Slice, ChunkCount;
  }

  lemma {:induction false} RefillHandsOver(L: Limits, e: Engine, id: Id, p: Payload, k: nat, env: Env)
    requires p.Ok() && k <= ChunkCount(p.header.size, CHUNK_BYTES) && Filled(e, id, p, k)
    ensures Quiet(L, e, Refill(id, p, k, env))
    ensures Continue(L, e, Refill(id, p, k, env)).handed == e.handed + [(id, p.data)]
    decreases ChunkCount(p.header.size, CHUNK_BYTES) - k
  {
    hide Step, ChunkCount, Slice, InMatches;
    var more := Refill(id, p, k, env);
    if k == ChunkCount(p.header.size, CHUNK_BYTES) {
      FilledIsHanded(L, e, id, p, env);
      ContinueOne(L, e, HashDone(id), env);
    } else {
      assert |e.inc[id].parts| == ChunkCount(p.header.size, CHUNK_BYTES) by { PartCount(e.inc[id], p); }
      ChunkFills(L, e, id, p, k, env);
      RefillHandsOver(L, Step(L, e, more[0].0, env), id, p, k + 1, env);
      assert more[1..] == Refill(id, p, k + 1, env);
    }
  }

  lemma PartCount(i: Incoming, p: Payload)
    requires InMatches(i, p)
    ensures |i.parts| == ChunkCount(p.header.size, CHUNK_BYTES)
  {
  }

  // ---- Making room --------------------------------------------------------

  /** A record was dropped while its payload was with `deliver`: nothing remembers the id. */
  ghost predicate Forgotten(e: Engine, id: Id) {
    && id !in e.inc && id !in e.stored && Handed(e, id)
    && forall j :: SavingAt(e, j) ==> e.inc[j].serial in e.saving && e.saving[e.inc[j].serial].id == j
  }

  /** The other saves become visible one after the other. */
  lemma {:induction false} OthersShow(L: Limits, e: Engine, id: Id, todo: set<Id>, env: Env) returns (more: Script)
    requires Forgotten(e, id) && forall j :: Unseen(e, j) ==> j in todo
    ensures Quiet(L, e, more) && Forgotten(Continue(L, e, more), id) && forall j :: !Unseen(Continue(L, e, more), j)
    decreases |todo|
  {
    more := [];
    if todo != {} {
      var j :| j in todo;
      if Unseen(e, j) {
        var act := SaveVisible(e.inc[j].serial);
        var e1 := Step(L, e, act, env);
        OneShows(L, e, id, j, env);
        ContinueOne(L, e, act, env);
        hide Step, Forgotten, Unseen;
        var rest := OthersShow(L, e1, id, todo - {j}, env);
        ContinueOn(L, e, [(act, env)], rest);
        more := [(act, env)] + rest;
      } else {
        more := OthersShow(L, e, id, todo - {j}, env);
      }
    }
  }

  lemma OneShows(L: Limits, e: Engine, id: Id, j: Id, env: Env)
    requires Forgotten(e, id) && Unseen(e, j)
    ensures var e1 := Step(L, e, SaveVisible(e.inc[j].serial), env);
            Forgotten(e1, id) && forall x :: Unseen(e1, x) ==> Unseen(e, x) && x != j
  {
    var e1 := Step(L, e, SaveVisible(e.inc[j].serial), env);
    assert forall x :: SavingAt(e1, x) <==> SavingAt(e, x);
    assert Handed(e1, id) by {
      var k :| 0 <= k < |e.handed| && e.handed[k].0 == id;
      assert e1.handed[k].0 == id;
    }
    hide SavingAt, Handed;
  }

  /** With no save hidden, the room can be cleared, and the first chunk is admitted. */
  lemma FirstChunkOpens(L: Limits, e: Engine, id: Id, p: Payload, env: Env)
    requires p.Ok() && p.header.size <= L.maxIncomingBytesPerRoom && L.maxIncomingPerRoom >= 1
    requires e.inc == map[] && e.out == map[] && id !in e.stored
    ensures var c := Chunk(id, 0, ChunkCount(p.header.size, CHUNK_BYTES), p.header, Slice(p.data, CHUNK_BYTES, 0));
            var r := Step(L, e, Receive(c), env);
            Filled(r, id, p, 1) && r.handed == e.handed
  {
    var n := ChunkCount(p.header.size, CHUNK_BYTES);
    var c := Chunk(id, 0, n, p.header, Slice(p.data, CHUNK_BYTES, 0));
    HonestChunkDecodes(c, p);
    assert !Busy(L, e, c);
    var i := NewIncoming(p.header, n, env.now, e.nextSerial);
    NewMatches(p, env.now, e.nextSerial);
    AcceptFills(L, e.(nextSerial := e.nextSerial + 1), i, id, p, 0, env);
    hide Decodes, Slice, ChunkCount, AcceptChunk, InMatches, Busy;
  }

  lemma ClearForgets(L: Limits, e: Engine, id: Id, env: Env)
    requires Forgotten(e, id) && forall j :: !Unseen(e, j)
    ensures var r := Step(L, e, Clear, env);
            !Interrupts(e, Clear) && r.inc == map[] && r.out == map[] && id !in r.stored && Handed(r, id)
  {
  }

  lemma HandedAgain(e: Engine, e': Engine, id: Id, d: Bytes)
    requires Handed(e, id) && e'.handed == e.handed + [(id, d)]
    ensures !HandedOnce(e')
  {
    var k :| 0 <= k < |e.handed| && e.handed[k].0 == id;
    assert e'.handed[k].0 == e'.handed[|e.handed|].0;
  }

  /** A forgotten id is handed over again by the chunks of its payload. */
  lemma ForgottenRepeats(L: Limits, e: Engine, id: Id, p: Payload, env: Env) returns (more: Script)
    requires Forgotten(e, id) && p.Ok() && p.header.size <= L.maxIncomingBytesPerRoom && L.maxIncomingPerRoom >= 1
    ensures Quiet(L, e, more) && !HandedOnce(Continue(L, e, more))
    ensures var h := Continue(L, e, more).handed; h != [] && h[|h| - 1] == (id, p.data)
  {
    assert forall j :: Unseen(e, j) ==> j in e.inc.Keys;
    hide Step, Slice, ChunkCount, Forgotten, Unseen, HandedOnce, Handed, Filled, Interrupts;
    var show := OthersShow(L, e, id, e.inc.Keys, env);
    var e1 := Continue(L, e, show);
    ClearForgets(L, e1, id, env);
    ContinueOne(L, e1, Clear, env);
    ContinueOn(L, e, show, [(Clear, env)]);
    var e2 := Step(L, e1, Clear, env);
    more := show + [(Clear, env)];
    var all := Refill(id, p, 0, env);
    FirstChunkOpens(L, e2, id, p, env);
    ChunkIsQuiet(e2, all[0].0.msg);
    ContinueOne(L, e2, all[0].0, env);
    var e3 := Step(L, e2, all[0].0, env);
    SameHandedId(e2, e3, id);
    RefillHandsOver(L, e3, id, p, 1, env);
    HandedAgain(e3, Continue(L, e3, all[1..]), id, p.data);
    assert [all[0]] + all[1..] == all;
    ContinueOn(L, e2, [all[0]], all[1..]);
    ContinueOn(L, e, more, all);
    more := more + all;
  }

  lemma SameHandedId(e: Engine, e': Engine, id: Id)
    requires Handed(e, id) && e'.handed == e.handed
    ensures Handed(e', id)
  {
  }

  lemma ChunkIsQuiet(e: Engine, c: Msg)
    requires c.Chunk?
    ensures !Interrupts(e, Receive(c))
  {
  }

  // ---- The exact condition ------------------------------------------------

  /** The events that drop the record of an id. */
  predicate Drops(act: Act, id: Id) {
    act == Receive(Cancel(id)) || act == StorageRefused(id) || act == CancelByUser(id) || act == Forget(id) || act.Clear?
  }

  lemma DropForgets(L: Limits, e: Engine, act: Act, id: Id, env: Env)
    requires OnceInv(e) && Unseen(e, id)
    requires Drops(act, id)
    ensures Forgotten(Step(L, e, act, env), id)
  {
    UnseenIsHanded(e, id);
    DropShape(L, e, act, id, env);
    hide Step, Handed, HandedOk, SerialsOk;
    var r := Step(L, e, act, env);
    SameHandedId(e, r, id);
    assert forall j :: SavingAt(r, j) ==> SavingAt(e, j);
  }

  lemma DropShape(L: Limits, e: Engine, act: Act, id: Id, env: Env)
    requires id in e.inc
    requires Drops(act, id)
    ensures var r := Step(L, e, act, env);
            && (r.inc == e.inc - {id} || r.inc == map[])
            && r.saving == e.saving && r.stored == e.stored && r.handed == e.handed
  {
    hide OutStep, OutMsgs;
  }

  lemma UnseenIsHanded(e: Engine, id: Id)
    requires OnceInv(e) && SavingAt(e, id)
    ensures Handed(e, id)
  {
    assert e.inc[id].serial in e.saving;
  }

  /** A failed `deliver` leaves its record behind, empty and ready to collect the parts again. */
  lemma FailedIsFilled(L: Limits, e: Engine, s: nat, env: Env)
    requires OnceInv(e) && RecordsOk(L, e) && Interrupts(e, SaveDone(s, false))
    ensures var id := e.saving[s].id;
            var p := Wanted(e.inc[id]);
            var r := Step(L, e, SaveDone(s, false), env);
            p.Ok() && Filled(r, id, p, 0) && Handed(r, id)
  {
    var id := e.saving[s].id;
    LiveIsSaving(e, s);
    assert RecordOk(L, e.inc[id]);
    var r := Step(L, e, SaveDone(s, false), env);
    UnseenIsHanded(e, id);
    assert r.handed == e.handed && r.inc[id] == EmptyParts(e.inc[id]).(status := Failed, lastActivityAt := env.now);
    hide Handed, OnceInv, Step, RecordsOk;
    SameHandedId(e, r, id);
    EmptiedMatches(L, e.inc[id], r.inc[id]);
  }

  lemma EmptiedMatches(L: Limits, i: Incoming, r: Incoming)
    requires RecordOk(L, i) && r == EmptyParts(i).(status := Failed, lastActivityAt := r.lastActivityAt)
    ensures InMatches(r, Wanted(i)) && r.phase == Collecting
  {
    NoneHeld(r.parts);
    hide ChunkCount, Slice;
  }

  lemma LiveIsSaving(e: Engine, s: nat)
    requires OnceInv(e) && Interrupts(e, SaveDone(s, false))
    ensures SavingAt(e, e.saving[s].id)
  {
    hide Handed, HandedOnce;
  }

  /** After an interruption of any kind, the chunks of the interrupted payload and events that
      interrupt nothing hand it to `deliver` a second time. */
  lemma InterruptionRepeats(L: Limits, e: Engine, act: Act, env: Env) returns (more: Script)
    requires OnceInv(e) && RecordsOk(L, e) && Interrupts(e, act)
    ensures Quiet(L, Step(L, e, act, env), more) && !HandedOnce(Continue(L, Step(L, e, act, env), more))
  {
    if act.SaveDone? {
      hide OnceInv, RecordsOk, Step;
      more := FailureRepeats(L, e, act.serial, env);
    } else {
      var id := DroppedId(e, act);
      hide OnceInv, RecordsOk, Step, Interrupts;
      more := DropRepeats(L, e, act, id, env);
    }
  }

  lemma DroppedId(e: Engine, act: Act) returns (id: Id)
    requires Interrupts(e, act) && !act.SaveDone?
    ensures Unseen(e, id) && Drops(act, id)
  {
    match act
    case Receive(Cancel(j)) => id := j;
    case StorageRefused(j) => id := j;
    case CancelByUser(j) => id := j;
    case Forget(j) => id := j;
    case Clear => id :| Unseen(e, id);
  }

  lemma FailureRepeats(L: Limits, e: Engine, s: nat, env: Env) returns (more: Script)
    requires OnceInv(e) && RecordsOk(L, e) && Interrupts(e, SaveDone(s, false))
    ensures var e1 := Step(L, e, SaveDone(s, false), env);
            Quiet(L, e1, more) && !HandedOnce(Continue(L, e1, more))
  {
    var id := e.saving[s].id;
    var p := Wanted(e.inc[id]);
    var e1 := Step(L, e, SaveDone(s, false), env);
    hide OnceInv, RecordsOk, Step, Handed, HandedOnce, ChunkCount, Filled;
    FailedIsFilled(L, e, s, env);
    more := Refill(id, p, 0, env);
    RefillHandsOver(L, e1, id, p, 0, env);
    HandedAgain(e1, Continue(L, e1, more), id, p.data);
  }

  lemma DropRepeats(L: Limits, e: Engine, act: Act, id: Id, env: Env) returns (more: Script)
    requires OnceInv(e) && RecordsOk(L, e) && Unseen(e, id) && Drops(act, id)
    ensures var e1 := Step(L, e, act, env);
            Quiet(L, e1, more) && !HandedOnce(Continue(L, e1, more))
  {
    assert RecordOk(L, e.inc[id]);
    hide OnceInv, RecordsOk, Step, HandedOnce, ChunkCount;
    DropForgets(L, e, act, id, env);
    more := ForgottenRepeats(L, Step(L, e, act, env), id, Wanted(e.inc[id]), env);
  }

  /** Visibility does not help against a failing `deliver`: the record stays, and a chunk of a known
      record is not checked against the stored messages. */
  lemma VisibleFailureRepeats(L: Limits, acts: Script, s: nat, env: Env) returns (more: Script)
    requires Uninterrupted(L, acts)
    requires var e := EngineRun(L, acts);
             && s in e.saving && e.saving[s].visible && e.saving[s].id in e.stored
             && e.saving[s].id in e.inc && e.inc[e.saving[s].id].serial == s
    ensures var e1 := Step(L, EngineRun(L, acts), SaveDone(s, false), env);
            Quiet(L, e1, more) && !HandedOnce(Continue(L, e1, more))
  {
    RunOnce(L, acts);
    RunRecordsOk(L, acts);
    hide OnceInv, RecordsOk, Step, EngineRun, HandedOnce, Quiet, Continue;
    more := FailureRepeats(L, EngineRun(L, acts), s, env);
  }

  /** Exactly when an event of an uninterrupted run makes a second hand-over possible: when it drops
      a record whose message is with `deliver` and not yet visible, or is the failure of a live
      record's `deliver`, visible or not. What follows it may be free of interruptions. */
  lemma RepeatsIffInterrupted(L: Limits, acts: Script, act: Act, env: Env)
    requires Uninterrupted(L, acts)
    ensures var e := EngineRun(L, acts);
            var e1 := Step(L, e, act, env);
            (exists more :: Quiet(L, e1, more) && !HandedOnce(Continue(L, e1, more))) <==> Interrupts(e, act)
  {
    RunOnce(L, acts);
    RunRecordsOk(L, acts);
    var e := EngineRun(L, acts);
    var e1 := Step(L, e, act, env);
    hide OnceInv, RecordsOk, Step, EngineRun, HandedOnce, Interrupts, Quiet, Continue;
    if Interrupts(e, act) {
      var more := InterruptionRepeats(L, e, act, env);
    } else {
      OnceStep(L, e, act, env);
      forall more | Quiet(L, e1, more) ensures HandedOnce(Continue(L, e1, more)) { QuietKeeps(L, e1, more); }
    }
  }
}
