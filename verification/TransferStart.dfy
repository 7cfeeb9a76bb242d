/** What startSend puts on the wire, and which incoming transfers a room admits. */
module TransferStarts {
  import opened Wrappers
  import opened Chunking
  import opened TransferRecords
  import opened TransferProtocol
  import opened TransferOnce

  // ---- Starting a transfer ------------------------------------------------

  /** Chunk `k` of a payload, as it goes on the wire. */
  function ChunkNo(id: Id, p: Payload, k: nat): Msg {
    Chunk(id, k, ChunkCount(|p.data|, CHUNK_BYTES), p.header, Slice(p.data, CHUNK_BYTES, k))
  }

  /** The numbers below k. */
  function UpTo(k: nat): set<nat> { if k == 0 then {} else UpTo(k - 1) + {k - 1} }

  lemma {:induction false} CountUpTo(k: nat)
    ensures |UpTo(k)| == k && k !in UpTo(k)
    ensures forall i :: i in UpTo(k) ==> i < k
  {
    if k > 0 { CountUpTo(k - 1); }
  }

  /** How many chunks the first burst may have. */
  function FirstBurst(L: Limits, p: Payload): nat { Min(L.window, ChunkCount(|p.data|, CHUNK_BYTES)) }

  /** The record of a transfer of which chunks 0 to k - 1 are sent, and chunk k is being sent if the first
      burst reaches it. */
  ghost predicate Sending(L: Limits, e: Engine, id: Id, p: Payload, k: nat) {
    && id in e.out
    && var o := e.out[id];
       && o.header == p.header && o.data == p.data && o.total == ChunkCount(|p.data|, CHUNK_BYTES)
       && o.status == Active && o.acked == {} && o.attempts == 0 && o.inFlight.Keys == UpTo(k)
       && k <= FirstBurst(L, p)
       && (if k < FirstBurst(L, p) then o.hands == [k] && o.pumping && o.queue == Upto(o.total)[k + 1..]
           else o.hands == [] && !o.pumping && o.queue == Upto(o.total)[k..])
  }

  /** A fresh start on a usable link sends chunk 0 and nothing else; on one that is not, nothing, and
      it waits. */
  lemma FreshStartSends(L: Limits, e: Engine, id: Id, p: Payload, env: Env)
    requires p.Ok() && L.window >= 1
    ensures var r := Start(L, e, id, p, false, env);
            && r == e.(out := e.out[id := r.out[id]], sent := e.sent + if env.canSend then {ChunkNo(id, p, 0)} else {})
            && (env.canSend ==> Sending(L, r, id, p, 0))
            && (!env.canSend ==> r.out[id].status == Waiting)
  {
    var o := NewOutgoing(p.header, p.data, false, env.now);
    assert o.queue[0] == 0;
    assert o.inFlight.Keys == UpTo(0);
    hide Slice, ChunkCount;
  }

  /** A resumed start sends no chunk: it asks what the peer has, and waits if it cannot. */
  lemma ResumedStartAsks(L: Limits, e: Engine, id: Id, p: Payload, env: Env)
    ensures var r := Start(L, e, id, p, true, env);
            && r == e.(out := e.out[id := r.out[id]], sent := e.sent + if env.canSend then {Query(id)} else {})
            && r.out[id].status == (if env.canSend then Active else Waiting) && r.out[id].queue == []
  {
  }

  /** A send that succeeds puts its chunk in flight and the next one on the wire, as far as the window reaches. */
  lemma SendSucceeds(L: Limits, e: Engine, id: Id, p: Payload, k: nat, env: Env)
    requires p.Ok() && Sending(L, e, id, p, k) && k < FirstBurst(L, p) && env.canSend
    ensures var r := Step(L, e, PumpReturns(id, 0, true), env);
            && Sending(L, r, id, p, k + 1)
            && r.sent == e.sent + if k + 1 < FirstBurst(L, p) then {ChunkNo(id, p, k + 1)} else {}
  {
    var o, ev := e.out[id], SendResolved(0, true);
    hide Slice, ChunkCount, Resume, Upto, UpTo, Payload.Ok;
    ResumeMoves(L, o, k, env);
    assert OutStep(L, o, ev, env) == Resume(L, o, 0, true, env);
    assert StillSuspended(o, ev) == 0 && !Queries(L, o, ev, env);
    hide OutStep, StillSuspended, Queries;
  }

  /** The same at the record. */
  lemma ResumeMoves(L: Limits, o: Outgoing, k: nat, env: Env)
    requires env.canSend && k < Min(L.window, o.total) && o.hands == [k] && o.pumping && o.queue == Upto(o.total)[k + 1..]
    requires o.status == Active && o.acked == {} && o.inFlight.Keys == UpTo(k)
    ensures var r := Resume(L, o, 0, true, env);
            && r.header == o.header && r.data == o.data && r.total == o.total && r.acked == {} && r.attempts == o.attempts
            && r.status == Active && r.inFlight.Keys == UpTo(k + 1)
            && if k + 1 < Min(L.window, o.total) then r.hands == [k + 1] && r.pumping && r.queue == Upto(o.total)[k + 2..]
               else r.hands == [] && !r.pumping && r.queue == Upto(o.total)[k + 1..]
  {
    assert o.hands[..0] + o.hands[1..] == [];
    var o1 := o.(hands := [], lastActivityAt := env.now, inFlight := o.inFlight[k := env.now]);
    CountUpTo(k + 1);
    assert o1.inFlight.Keys == UpTo(k) + {k} == UpTo(k + 1);
    assert |o1.inFlight| == |o1.inFlight.Keys| == k + 1;
    if k + 1 < o.total { assert o.queue[0] == k + 1 && o.queue[1..] == Upto(o.total)[k + 2..]; }
    hide UpTo, Upto;
  }

  /** `n` sends that succeed, one after the other. */
  ghost function Succeeds(L: Limits, e: Engine, id: Id, n: nat, env: Env): Engine {
    if n == 0 then e else Step(L, Succeeds(L, e, id, n - 1, env), PumpReturns(id, 0, true), env)
  }

  /** The first burst of a fresh start: chunks 0, 1, 2 and so on, one per send, up to the window or the end,
      each the slice of the payload that its number names. */
  lemma {:induction false} FirstBurstSends(L: Limits, e: Engine, id: Id, p: Payload, n: nat, env: Env)
    requires p.Ok() && env.canSend && L.window >= 1 && n <= FirstBurst(L, p)
    ensures var r := Succeeds(L, Start(L, e, id, p, false, env), id, n, env);
            && Sending(L, r, id, p, n)
            && r.sent == e.sent + set k: nat | k <= n && k < FirstBurst(L, p) :: ChunkNo(id, p, k)
  {
    hide Sending, ChunkNo, Step, Start, FirstBurst;
    var s := Start(L, e, id, p, false, env);
    FreshStartSends(L, e, id, p, env);
    BurstNotEmpty(L, p);
    if n > 0 {
      FirstBurstSends(L, e, id, p, n - 1, env);
      SendSucceeds(L, Succeeds(L, s, id, n - 1, env), id, p, n - 1, env);
      assert (set k: nat | k <= n && k < FirstBurst(L, p) :: ChunkNo(id, p, k))
             == (set k: nat | k <= n - 1 && k < FirstBurst(L, p) :: ChunkNo(id, p, k))
                + if n < FirstBurst(L, p) then {ChunkNo(id, p, n)} else {};
    } else {
      assert (set k: nat | k <= n && k < FirstBurst(L, p) :: ChunkNo(id, p, k)) == {ChunkNo(id, p, 0)};
    }
  }

  lemma BurstNotEmpty(L: Limits, p: Payload)
    requires L.window >= 1
    ensures FirstBurst(L, p) >= 1
  {
  }

  // ---- Admission ----------------------------------------------------------

  /** Taking one record away takes its bytes away. */
  lemma {:induction false} PendingBytesWithout(m: map<Id, Incoming>, id: Id)
    requires id in m
    ensures PendingBytes(m) == m[id].header.size + PendingBytes(m - {id})
    decreases |m|
  {
    var x :| x in m && PendingBytes(m) == m[x].header.size + PendingBytes(m - {x});
    assert (m - {x}).Keys == m.Keys - {x} && (m - {id}).Keys == m.Keys - {id};
    if x != id {
      PendingBytesWithout(m - {x}, id);
      PendingBytesWithout(m - {id}, x);
      assert m - {x} - {id} == m - {id} - {x};
    }
  }

  /** Records that go, or stay with their headers, leave no more bytes pending, and no more records. */
  lemma {:induction false} PendingShrinks(m: map<Id, Incoming>, m': map<Id, Incoming>)
    requires m'.Keys <= m.Keys && forall id :: id in m' ==> m'[id].header.size == m[id].header.size
    ensures PendingBytes(m') <= PendingBytes(m) && |m'| <= |m|
    decreases |m|
  {
    if m != map[] {
      var id :| id in m;
      PendingBytesWithout(m, id);
      WithoutOne(m, m', id);
      hide PendingBytes;
      PendingShrinks(m - {id}, m' - {id});
      if id in m' { PendingBytesWithout(m', id); }
    }
  }

  lemma WithoutOne(m: map<Id, Incoming>, m': map<Id, Incoming>, id: Id)
    requires id in m && m'.Keys <= m.Keys
    ensures (m - {id}).Keys == m.Keys - {id} && (m' - {id}).Keys == m'.Keys - {id} && (m' - {id}).Keys <= (m - {id}).Keys
    ensures |m - {id}| == |m| - 1 && |m' - {id}| == |m'| - if id in m' then 1 else 0
    ensures id !in m' ==> m' - {id} == m'
  {
    assert (m - {id}).Keys == m.Keys - {id} && (m' - {id}).Keys == m'.Keys - {id};
    assert |m - {id}| == |(m - {id}).Keys| && |m' - {id}| == |(m' - {id}).Keys| && |m| == |m.Keys| && |m'| == |m'.Keys|;
  }

  /** A chunk of a transfer the engine does not know is admitted exactly when the room has a place and
      the bytes to spare; otherwise a cancel goes out, and nothing else happens. */
  lemma AdmittedIff(L: Limits, e: Engine, c: Msg, env: Env)
    requires c.Chunk? && Decodes(c) && c.id !in e.inc && c.id !in e.out && c.id !in e.stored
    ensures var r := Step(L, e, Receive(c), env);
            && (c.id in r.inc <==> |e.inc| < L.maxIncomingPerRoom
                                   && PendingBytes(e.inc) + c.header.size <= L.maxIncomingBytesPerRoom)
            && (c.id !in r.inc ==> r == e.(sent := e.sent + {Cancel(c.id)}))
            && (c.id in r.inc ==>
                  && r.inc == e.inc[c.id := r.inc[c.id]] && r.out == e.out && Cancel(c.id) !in r.sent - e.sent
                  && r.inc[c.id].header == c.header && |r.inc[c.id].parts| == c.total && r.inc[c.id].received == 1
                  && r.inc[c.id].status == Active && r.inc[c.id].attempts == 0 && r.inc[c.id].lastActivityAt == env.now
                  && r.inc[c.id].phase == (if c.total == 1 then Hashing else Collecting)
                  && forall k :: 0 <= k < c.total ==> r.inc[c.id].parts[k] == if k == c.index then Some(c.data) else None)
  {
    assert c.index < c.total;
    NewRecordIs(L, e, c, env);
    hide PendingBytes, Decodes, AcceptChunk;
  }

  lemma NewRecordIs(L: Limits, e: Engine, c: Msg, env: Env)
    requires c.Chunk? && c.index < c.total
    ensures var r := AcceptChunk(L, e.(nextSerial := e.nextSerial + 1),
                                 NewIncoming(c.header, c.total, env.now, e.nextSerial), c, env);
            && c.id in r.inc && r.inc == e.inc[c.id := r.inc[c.id]] && r.out == e.out && Cancel(c.id) !in r.sent - e.sent
            && var i := r.inc[c.id];
               && i.header == c.header && |i.parts| == c.total && i.received == 1
               && i.status == Active && i.attempts == 0 && i.lastActivityAt == env.now
               && i.phase == (if c.total == 1 then Hashing else Collecting)
               && forall k :: 0 <= k < c.total ==> i.parts[k] == if k == c.index then Some(c.data) else None
  {
    hide Held;
  }

  /** No room ever holds more than its two limits. */
  ghost predicate WithinCaps(L: Limits, e: Engine) {
    |e.inc| <= L.maxIncomingPerRoom && PendingBytes(e.inc) <= L.maxIncomingBytesPerRoom
  }

  ghost predicate NoneOpened(e: Engine, r: Engine) {
    r.inc.Keys <= e.inc.Keys && forall id :: id in r.inc ==> r.inc[id].header == e.inc[id].header
  }

  lemma AllInOpensNone(L: Limits, e: Engine, ev: InEvent, env: Env)
    ensures NoneOpened(e, AtAllIn(L, e, ev, env))
  {
    forall i: Incoming ensures InStep(L, i, ev, env).Some? ==> InStep(L, i, ev, env).value.header == i.header {}
    hide InStep, InMsgs;
  }

  lemma InOpensNone(L: Limits, e: Engine, id: Id, ev: InEvent, env: Env)
    requires id in e.inc
    ensures NoneOpened(e, AtIn(L, e, id, e.inc[id], ev, env))
  {
    hide InMsgs, Backoff;
  }

  lemma ReceiveOpensNone(L: Limits, e: Engine, m: Msg, env: Env)
    requires !m.Chunk?
    ensures NoneOpened(e, Step(L, e, Receive(m), env))
  {
    hide OutStep, OutMsgs, AtIn, Decodes;
    if m.Query? && m.id in e.inc { InOpensNone(L, e, m.id, PeerAsked, env); }
  }

  /** The events other than chunks open no record. */
  lemma OnlyChunksOpen(L: Limits, e: Engine, act: Act, env: Env)
    requires !(act.Receive? && act.msg.Chunk?)
    ensures NoneOpened(e, Step(L, e, act, env))
  {
    match act {
      case Receive(m) => hide Step; ReceiveOpensNone(L, e, m, env);
      case OnConnected => hide AtAllIn; AllInOpensNone(L, AtAllOut(L, e, Connected, env), LinkUp, env);
      case OnDisconnected => hide AtAllIn; AllInOpensNone(L, AtAllOut(L, e, Disconnected, env), LinkDown, env);
      case TimerTick => hide AtAllIn; AllInOpensNone(L, AtAllOut(L, e, Ticked, env), Tick, env);
      case Retry(id) =>
        hide AtIn, OutStep, OutMsgs;
        var e1 := if id in e.out then AtOut(L, e, id, e.out[id], Retried, env) else e;
        if id in e1.inc { InOpensNone(L, e1, id, UserRetry, env); }
      case _ => hide OutStep, OutMsgs, Held, Upto, Flatten, Payloads;
    }
  }

  /** Storing a part keeps the record's header. */
  lemma AcceptHeader(L: Limits, e: Engine, i: Incoming, c: Msg, env: Env)
    requires c.Chunk?
    ensures var r := AcceptChunk(L, e, i, c, env);
            r.inc == e.inc || (c.id in r.inc && r.inc == e.inc[c.id := r.inc[c.id]] && r.inc[c.id].header == i.header)
  {
    hide Held, SameHeader, AckDue;
  }

  lemma OneMorePending(m: map<Id, Incoming>, m': map<Id, Incoming>, id: Id)
    requires id !in m && id in m' && m' == m[id := m'[id]]
    ensures PendingBytes(m') == PendingBytes(m) + m'[id].header.size && |m'| == |m| + 1
  {
    assert m' - {id} == m;
    PendingBytesWithout(m', id);
  }

  lemma SameRoomWithinCaps(L: Limits, e: Engine, r: Engine)
    requires WithinCaps(L, e) && NoneOpened(e, r)
    ensures WithinCaps(L, r)
  {
    PendingShrinks(e.inc, r.inc);
    hide PendingBytes;
  }

  lemma KnownWithinCaps(L: Limits, e: Engine, c: Msg, env: Env)
    requires c.Chunk? && WithinCaps(L, e) && c.id in e.inc
    ensures WithinCaps(L, AcceptChunk(L, e, e.inc[c.id], c, env))
  {
    hide AcceptChunk, WithinCaps;
    AcceptHeader(L, e, e.inc[c.id], c, env);
    SameRoomWithinCaps(L, e, AcceptChunk(L, e, e.inc[c.id], c, env));
  }

  lemma NewWithinCaps(L: Limits, e: Engine, c: Msg, env: Env)
    requires c.Chunk? && WithinCaps(L, e) && c.id !in e.inc && !Busy(L, e, c)
    ensures WithinCaps(L, AcceptChunk(L, e.(nextSerial := e.nextSerial + 1),
                                      NewIncoming(c.header, c.total, env.now, e.nextSerial), c, env))
  {
    var e1, i := e.(nextSerial := e.nextSerial + 1), NewIncoming(c.header, c.total, env.now, e.nextSerial);
    var r := AcceptChunk(L, e1, i, c, env);
    AcceptHeader(L, e1, i, c, env);
    hide AcceptChunk, PendingBytes;
    if r.inc != e.inc { OneMorePending(e.inc, r.inc, c.id); }
  }

  lemma ChunkWithinCaps(L: Limits, e: Engine, c: Msg, env: Env)
    requires c.Chunk? && WithinCaps(L, e)
    ensures WithinCaps(L, HandleChunk(L, e, c, env))
  {
    var r := HandleChunk(L, e, c, env);
    if c.id in e.inc {
      KnownWithinCaps(L, e, c, env);
      hide WithinCaps, AcceptChunk;
    } else if c.id !in e.out && c.id !in e.stored && !Busy(L, e, c) {
      NewWithinCaps(L, e, c, env);
      hide WithinCaps, AcceptChunk, Busy;
    } else {
      assert r.inc == e.inc;
      hide HandleChunk, PendingBytes;
    }
  }

  /** In every run, whatever arrives, no room holds more transfers or more announced bytes than its limits. */
  lemma {:induction false} RunWithinCaps(L: Limits, acts: Script)
    ensures WithinCaps(L, EngineRun(L, acts))
    decreases |acts|
  {
    if acts == [] {
      assert PendingBytes(map[]) == 0;
    } else {
      var k := |acts| - 1;
      RunWithinCaps(L, acts[..k]);
      hide Step, WithinCaps;
      StepWithinCaps(L, EngineRun(L, acts[..k]), acts[k].0, acts[k].1);
    }
  }

  lemma StepWithinCaps(L: Limits, e: Engine, act: Act, env: Env)
    requires WithinCaps(L, e)
    ensures WithinCaps(L, Step(L, e, act, env))
  {
    if act.Receive? && act.msg.Chunk? {
      ChunkWithinCaps(L, e, act.msg, env);
      hide WithinCaps, HandleChunk, Decodes;
    } else {
      hide Step, WithinCaps;
      OnlyChunksOpen(L, e, act, env);
      SameRoomWithinCaps(L, e, Step(L, e, act, env));
    }
  }
}
