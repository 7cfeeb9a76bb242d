/** One engine's state for one room, and its handlers, as functions from state to state.
    `sent` is every message ever handed to `deps.send`: the relay may lose any of them,
    repeat them and reorder them, so the peer may receive any member at any time. */
module TransferProtocol {
  import opened Wrappers
  import opened Chunking
  import opened TransferRecords

  datatype Msg =
    | Chunk(id: Id, index: nat, total: nat, header: Header, data: Bytes)
    | Ack(id: Id, have: seq<nat>, resend: bool, done: bool)
    | Query(id: Id)
    | Cancel(id: Id)

  /** A `deps.deliver` call that has not settled; `visible` once `hasMessage` reports it. */
  datatype Save = Save(id: Id, data: Bytes, total: nat, visible: bool)

  datatype Engine = Engine(
    out: map<Id, Outgoing>,
    inc: map<Id, Incoming>,
    stored: map<Id, Bytes>,
    saving: map<nat, Save>,
    nextSerial: nat,
    sent: set<Msg>,
    handed: seq<(Id, Bytes)>,
    confirmed: set<Id>)

  /** A payload the user sends, with the header startSend computes for it. */
  datatype Payload = Payload(header: Header, data: Bytes) {
    /** Sizes and digests match; startSend throws for anything larger than the cap. */
    ghost predicate Ok() {
      header.size == |data| <= MAX_TRANSFER_BYTES && header.sha256 == Sha256(data)
    }
  }

  function Idle(): Engine { Engine(map[], map[], map[], map[], 0, {}, [], {}) }

  /** What decodePlaintext accepts; anything else throws before it reaches a handler. */
  predicate Decodes(m: Msg) {
    match m
    case Chunk(_, index, total, h, data) =>
      h.size <= MAX_TRANSFER_BYTES && total == ChunkCount(h.size, CHUNK_BYTES) && index < total &&
      |data| == ChunkLength(h.size, CHUNK_BYTES, index)
    case Ack(_, have, _, _) =>
      |have| <= MAX_TRANSFER_CHUNKS && forall k :: 0 <= k < |have| ==> have[k] < MAX_TRANSFER_CHUNKS
    case Query(_) => true
    case Cancel(_) => true
  }

  // ---- Sender -------------------------------------------------------------

  function ChunkOf(id: Id, o: Outgoing, index: nat): Msg {
    Chunk(id, index, o.total, o.header, Slice(o.data, CHUNK_BYTES, index))
  }

  /** How many suspended pump calls outlive the event if it starts no new send. */
  function StillSuspended(o: Outgoing, ev: OutEvent): nat {
    if ev.SendResolved? && ev.k < |o.hands| then |o.hands| - 1 else |o.hands|
  }

  /** What the event sends: the chunk a pump call has newly taken in hand, and a query if
      one is due. */
  function OutMsgs(L: Limits, id: Id, o: Outgoing, ev: OutEvent, env: Env): set<Msg> {
    var r := OutStep(L, o, ev, env);
    (if |r.hands| > StillSuspended(o, ev) then {ChunkOf(id, r, r.hands[|r.hands| - 1])} else {})
    + (if Queries(L, o, ev, env) then {Query(id)} else {})
  }

  /** One event at one outgoing record. */
  function AtOut(L: Limits, e: Engine, id: Id, o: Outgoing, ev: OutEvent, env: Env): Engine {
    e.(out := e.out[id := OutStep(L, o, ev, env)], sent := e.sent + OutMsgs(L, id, o, ev, env))
  }

  /** One event at every outgoing record of the room. */
  function AtAllOut(L: Limits, e: Engine, ev: OutEvent, env: Env): Engine {
    e.(out := map id | id in e.out :: OutStep(L, e.out[id], ev, env),
       sent := e.sent + set id, m | id in e.out && m in OutMsgs(L, id, e.out[id], ev, env) :: m)
  }

  /** The registration half of startSend. Two calls for one id may both pass the `has` test
      before either registers, so an existing record may be overwritten. */
  function Start(L: Limits, e: Engine, id: Id, p: Payload, resume: bool, env: Env): Engine {
    AtOut(L, e, id, NewOutgoing(p.header, p.data, resume, env.now), if resume then Offered else Started, env)
  }

  function HandleAck(L: Limits, e: Engine, a: Msg, env: Env): Engine
    requires a.Ack?
  {
    if a.id !in e.out then (if a.resend && !a.done then e.(sent := e.sent + {Cancel(a.id)}) else e)
    else if a.done then e.(out := e.out - {a.id}, confirmed := e.confirmed + {a.id})
    else AtOut(L, e, a.id, e.out[a.id], Acked(a.have, a.resend), env)
  }

  function HandleCancel(L: Limits, e: Engine, id: Id, env: Env): Engine {
    var e1 := if id in e.out then AtOut(L, e, id, e.out[id], Cancelled, env) else e;
    e1.(inc := e1.inc - {id})
  }

  // ---- Receiver -----------------------------------------------------------

  function AckFor(id: Id, i: Incoming, resend: bool): Msg { Ack(id, Held(i.parts), resend, false) }

  function InMsgs(L: Limits, id: Id, i: Incoming, ev: InEvent, env: Env): set<Msg> {
    if AsksResend(L, i, ev, env) then {AckFor(id, i, true)} else {}
  }

  function AtIn(L: Limits, e: Engine, id: Id, i: Incoming, ev: InEvent, env: Env): Engine {
    var r := InStep(L, i, ev, env);
    e.(inc := if r.Some? then e.inc[id := r.value] else e.inc - {id},
       sent := e.sent + InMsgs(L, id, i, ev, env))
  }

  function AtAllIn(L: Limits, e: Engine, ev: InEvent, env: Env): Engine {
    e.(inc := map id | id in e.inc && InStep(L, e.inc[id], ev, env).Some? :: InStep(L, e.inc[id], ev, env).value,
       sent := e.sent + set id, m | id in e.inc && m in InMsgs(L, id, e.inc[id], ev, env) :: m)
  }

  function HandleQuery(L: Limits, e: Engine, id: Id, env: Env): Engine {
    if id in e.inc then AtIn(L, e, id, e.inc[id], PeerAsked, env)
    else e.(sent := e.sent + {Ack(id, [], id !in e.stored, id in e.stored)})
  }

  /** Bytes announced by the headers of a set of pending transfers. */
  ghost function PendingBytes(m: map<Id, Incoming>): nat
    decreases |m|
  {
    if m == map[] then 0 else
      var id :| id in m;
      assert (m - {id}).Keys == m.Keys - {id};
      m[id].header.size + PendingBytes(m - {id})
  }

  ghost predicate Busy(L: Limits, e: Engine, c: Msg)
    requires c.Chunk?
  {
    |e.inc| >= L.maxIncomingPerRoom || PendingBytes(e.inc) + c.header.size > L.maxIncomingBytesPerRoom
  }

  /** handleChunk at a known record. */
  function AcceptChunk(L: Limits, e: Engine, i: Incoming, c: Msg, env: Env): Engine
    requires c.Chunk?
  {
    if !SameHeader(i.header, c.header) || i.total != c.total || c.index >= |i.parts| then e
    else if i.phase != Collecting || i.parts[c.index].Some? then e.(inc := e.inc[c.id := i])
    else
      var r := StorePart(i, c.index, c.data, env.now);
      if AckDue(L, r) then
        e.(inc := e.inc[c.id := r.(sinceAck := 0)], sent := e.sent + {AckFor(c.id, r, false)})
      else e.(inc := e.inc[c.id := r])
  }

  ghost function HandleChunk(L: Limits, e: Engine, c: Msg, env: Env): Engine
    requires c.Chunk?
  {
    if c.id in e.inc then AcceptChunk(L, e, e.inc[c.id], c, env)
    else if c.id in e.out then e
    else if c.id in e.stored then e.(sent := e.sent + {Ack(c.id, [], false, true)})
    else if Busy(L, e, c) then e.(sent := e.sent + {Cancel(c.id)})
    else
      AcceptChunk(L, e.(nextSerial := e.nextSerial + 1),
                  NewIncoming(c.header, c.total, env.now, e.nextSerial), c, env)
  }

  function Payloads(parts: seq<Option<Bytes>>): seq<Bytes> {
    seq(|parts|, k requires 0 <= k < |parts| => if parts[k].Some? then parts[k].value else [])
  }

  /** `complete` resumes with the digest of the assembled bytes, for a live record. */
  function HashResolved(e: Engine, id: Id, env: Env): Engine {
    if id !in e.inc || e.inc[id].phase != Hashing then e
    else
      var i := e.inc[id];
      var data := Flatten(Payloads(i.parts));
      if |data| == i.header.size && Sha256(data) == i.header.sha256 then
        e.(inc := e.inc[id := i.(phase := Saving)],
           saving := e.saving[i.serial := Save(id, data, i.total, false)],
           handed := e.handed + [(id, data)])
      else
        var r := EmptyParts(i).(attempts := i.attempts + 1, sinceAck := 0);
        if r.attempts > 2 then e.(inc := e.inc - {id}, sent := e.sent + {Cancel(id)})
        else e.(inc := e.inc[id := r.(lastActivityAt := env.now)], sent := e.sent + {AckFor(id, r, true)})
  }

  /** A pending deliver call has written the message: hasMessage now reports it. */
  function SaveShows(e: Engine, s: nat): Engine {
    if s !in e.saving then e
    else e.(saving := e.saving[s := e.saving[s].(visible := true)],
            stored := e.stored[e.saving[s].id := e.saving[s].data])
  }

  /** A deliver call settles. Success comes only after the write; it drops whatever record
      has the id by then and sends the final ack with the completed record's indices. */
  function SaveSettles(e: Engine, s: nat, ok: bool, env: Env): Engine {
    if s !in e.saving || (ok && !e.saving[s].visible) then e
    else
      var v := e.saving[s];
      var e1 := e.(saving := e.saving - {s});
      if ok then e1.(inc := e.inc - {v.id}, sent := e.sent + {Ack(v.id, Upto(v.total), false, true)})
      else if v.id in e.inc && e.inc[v.id].serial == s then
        e1.(inc := e.inc[v.id := EmptyParts(e.inc[v.id]).(status := Failed, lastActivityAt := env.now)])
      else e1
  }

  // ---- Whole engine -------------------------------------------------------

  datatype Act =
    | Begin(id: Id, payload: Payload, resume: bool)
    | PumpReturns(id: Id, k: nat, ok: bool)
    | Receive(msg: Msg)
    | HashDone(id: Id)
    | SaveVisible(serial: nat)
    | SaveDone(serial: nat, ok: bool)
    | StorageRefused(id: Id)
    | OnConnected
    | OnDisconnected
    | Retry(id: Id)
    | CancelByUser(id: Id)
    | Forget(id: Id)
    | Clear
    | TimerTick

  ghost function Step(L: Limits, e: Engine, act: Act, env: Env): Engine {
    match act
    case Begin(id, p, resume) => Start(L, e, id, p, resume, env)
    case PumpReturns(id, k, ok) =>
      if id in e.out then AtOut(L, e, id, e.out[id], SendResolved(k, ok), env) else e
    case Receive(m) =>
      if !Decodes(m) then e
      else (match m
            case Chunk(_, _, _, _, _) => HandleChunk(L, e, m, env)
            case Ack(_, _, _, _) => HandleAck(L, e, m, env)
            case Query(id) => HandleQuery(L, e, id, env)
            case Cancel(id) => HandleCancel(L, e, id, env))
    case HashDone(id) => HashResolved(e, id, env)
    case SaveVisible(s) => SaveShows(e, s)
    case SaveDone(s, ok) => SaveSettles(e, s, ok, env)
    case StorageRefused(id) =>
      if id in e.inc then e.(inc := e.inc - {id}, sent := e.sent + {Cancel(id)}) else e
    case OnConnected => AtAllIn(L, AtAllOut(L, e, Connected, env), LinkUp, env)
    case OnDisconnected => AtAllIn(L, AtAllOut(L, e, Disconnected, env), LinkDown, env)
    case Retry(id) =>
      var e1 := if id in e.out then AtOut(L, e, id, e.out[id], Retried, env) else e;
      if id in e1.inc then AtIn(L, e1, id, e1.inc[id], UserRetry, env) else e1
    case CancelByUser(id) =>
      if id in e.out || id in e.inc then
        e.(out := e.out - {id}, inc := e.inc - {id}, sent := e.sent + {Cancel(id)})
      else e
    case Forget(id) => e.(out := e.out - {id}, inc := e.inc - {id})
    case Clear => e.(out := map[], inc := map[])
    case TimerTick => AtAllIn(L, AtAllOut(L, e, Ticked, env), Tick, env)
  }
}
