/** The per-transfer records of web/src/lib/relay/transfer.ts and what each event does to
    one record. `pump` is a coroutine: it runs up to an `await` on the send of one chunk,
    is suspended there while other events change the record, and resumes later. `hands`
    holds the chunk index of every suspended `pump` call, `pumping` is the source's flag. */
module TransferRecords {
  import opened Wrappers
  import opened Chunking

  type Id = string

  /** SHA-256, taken to be injective: equal digests come from equal bytes. */
  datatype Digest = Sha256(preimage: Bytes)

  datatype Kind = Image | File

  datatype Header = Header(kind: Kind, ts: int, mime: string, size: nat, sha256: Digest, name: Option<string>)

  datatype Status = Active | Waiting | Failed

  datatype Limits = Limits(
    window: nat,
    ackEvery: nat,
    stallMs: nat,
    maxAttempts: nat,
    maxIncomingPerRoom: nat,
    maxIncomingBytesPerRoom: nat,
    failedTtlMs: nat)

  const DEFAULT_LIMITS := Limits(12, 4, 5000, 6, 3, 30 * 1024 * 1024, 600000)

  /** What a handler reads from outside: the clock and `deps.canSend`. */
  datatype Env = Env(now: int, canSend: bool)

  datatype Outgoing = Outgoing(
    header: Header,
    data: Bytes,
    total: nat,
    acked: set<nat>,
    queue: seq<nat>,
    inFlight: map<nat, int>,
    status: Status,
    attempts: nat,
    lastActivityAt: int,
    pumping: bool,
    hands: seq<nat>)

  /** `completing` in the source is `phase != Collecting`; the two later phases are the two
      awaits inside `complete`. `serial` is the identity of the record object. */
  datatype Phase = Collecting | Hashing | Saving

  datatype Incoming = Incoming(
    header: Header,
    total: nat,
    parts: seq<Option<Bytes>>,
    received: nat,
    status: Status,
    attempts: nat,
    lastActivityAt: int,
    sinceAck: nat,
    phase: Phase,
    serial: nat)

  function Pow2(n: nat): nat { if n == 0 then 1 else 2 * Pow2(n - 1) }

  function Backoff(L: Limits, attempts: nat): nat { L.stallMs * Min(Pow2(attempts), 6) }

  function SameHeader(a: Header, b: Header): bool {
    a.kind == b.kind && a.size == b.size && a.sha256 == b.sha256 && a.mime == b.mime && a.ts == b.ts
  }

  /** range(n) filtered by membership in neither set, in ascending order. */
  function Unheld(n: nat, acked: set<nat>, flying: set<nat>): seq<nat> {
    if n == 0 then [] else
      Unheld(n - 1, acked, flying) + if n - 1 !in acked && n - 1 !in flying then [n - 1] else []
  }

  /** The `have` list of an ack: the indices of the parts held, ascending. */
  function Held(parts: seq<Option<Bytes>>): seq<nat> {
    if parts == [] then [] else
      var k := |parts| - 1;
      Held(parts[..k]) + if parts[k].Some? then [k] else []
  }

  function Upto(n: nat): seq<nat> { seq(n, i requires 0 <= i => i) }

  /** startSend: the record it registers once the hash is known. */
  function NewOutgoing(header: Header, data: Bytes, resume: bool, now: int): Outgoing {
    var total := ChunkCount(header.size, CHUNK_BYTES);
    Outgoing(header, data, total, {}, if resume then [] else Upto(total), map[], Active, 0, now, false, [])
  }

  // ---- Sender -------------------------------------------------------------

  datatype OutEvent =
    | Started
    | Offered
    | Acked(have: seq<nat>, resend: bool)
    | SendResolved(k: nat, ok: bool)
    | Cancelled
    | Connected
    | Disconnected
    | Retried
    | Ticked

  /** The loop of `pump` from its test to the next `await` or to its end (which clears the flag). */
  function PumpLoop(L: Limits, o: Outgoing, canSend: bool): (r: Outgoing)
    ensures |r.queue| + |r.hands| <= |o.queue| + |o.hands|
    decreases |o.queue|
  {
    if o.status != Active || o.queue == [] || |o.inFlight| >= L.window then o.(pumping := false)
    else
      var index := o.queue[0];
      if index in o.acked || index in o.inFlight then PumpLoop(L, o.(queue := o.queue[1..]), canSend)
      else if !canSend then o.(status := Waiting, pumping := false)
      else o.(queue := o.queue[1..], hands := o.hands + [index])
  }

  function Pump(L: Limits, o: Outgoing, canSend: bool): Outgoing {
    if o.pumping then o else PumpLoop(L, o.(pumping := true), canSend)
  }

  /** A suspended `pump` resumes: its send has resolved to `ok`. */
  function Resume(L: Limits, o: Outgoing, k: nat, ok: bool, env: Env): Outgoing
    requires k < |o.hands|
  {
    var index := o.hands[k];
    var o1 := o.(hands := o.hands[..k] + o.hands[k + 1..]);
    if !ok then o1.(queue := [index] + o1.queue, status := Waiting, pumping := false)
    else
      PumpLoop(L, o1.(lastActivityAt := env.now,
                      inFlight := if index in o1.acked then o1.inFlight else o1.inFlight[index := env.now]),
               env.canSend)
  }

  /** The acknowledged indices that exist. */
  function Known(have: seq<nat>, total: nat): set<nat> { set i | i in have && i < total }

  /** The chunks sent less than `stallMs` ago. */
  function Recent(L: Limits, flying: map<nat, int>, now: int): map<nat, int> {
    map i | i in flying && now - flying[i] < L.stallMs :: flying[i]
  }

  /** The ack handler up to its call of `pump`. */
  function AbsorbAck(L: Limits, o: Outgoing, have: seq<nat>, resend: bool, now: int): Outgoing {
    var known := Known(have, o.total);
    var acked := o.acked + known;
    var flying := o.inFlight - known;
    var o1 := o.(acked := acked, inFlight := flying, lastActivityAt := now,
                 attempts := if |acked| > |o.acked| then 0 else o.attempts);
    if resend then
      var recent := Recent(L, flying, now);
      o1.(inFlight := recent, queue := Unheld(o.total, acked, recent.Keys), status := Active)
    else o1
  }

  function AskPeer(o: Outgoing, env: Env): Outgoing {
    o.(lastActivityAt := env.now, status := if env.canSend then o.status else Waiting)
  }

  function Revive(o: Outgoing): Outgoing { o.(attempts := 0, status := Active, inFlight := map[]) }

  predicate MustPump(L: Limits, o: Outgoing) { |o.queue| > 0 && |o.inFlight| < L.window }

  predicate Expired(L: Limits, o: Outgoing, now: int) { now - o.lastActivityAt >= Backoff(L, o.attempts) }

  function TickOut(L: Limits, o: Outgoing, env: Env): Outgoing {
    if o.status == Failed || o.pumping then o
    else if o.status == Waiting then (if env.canSend then AskPeer(o.(status := Active), env) else o)
    else if MustPump(L, o) then Pump(L, o, env.canSend)
    else if !Expired(L, o, env.now) then o
    else if o.attempts + 1 > L.maxAttempts then o.(attempts := o.attempts + 1, status := Failed, inFlight := map[])
    else AskPeer(o.(attempts := o.attempts + 1), env)
  }

  function OutStep(L: Limits, o: Outgoing, ev: OutEvent, env: Env): Outgoing {
    match ev
    case Started => Pump(L, o, env.canSend)
    case Offered => AskPeer(o, env)
    case Acked(have, resend) => Pump(L, AbsorbAck(L, o, have, resend, env.now), env.canSend)
    case SendResolved(k, ok) => if k < |o.hands| then Resume(L, o, k, ok, env) else o
    case Cancelled => o.(status := Failed, inFlight := map[], queue := [])
    case Connected => AskPeer(Revive(o), env)
    case Disconnected => if o.status == Failed then o else o.(inFlight := map[], status := Waiting)
    case Retried => AskPeer(Revive(o), env)
    case Ticked => TickOut(L, o, env)
  }

  /** Whether the event makes the sender ask the receiver for an ack (xfer_query). */
  predicate Queries(L: Limits, o: Outgoing, ev: OutEvent, env: Env) {
    env.canSend &&
    match ev
    case Offered => true
    case Connected => true
    case Retried => true
    case Ticked =>
      !(o.status == Failed || o.pumping) &&
      (o.status == Waiting ||
       (!MustPump(L, o) && Expired(L, o, env.now) && o.attempts + 1 <= L.maxAttempts))
    case _ => false
  }

  // ---- Receiver -----------------------------------------------------------

  datatype InEvent = PeerAsked | LinkUp | LinkDown | UserRetry | Tick

  function NewIncoming(header: Header, total: nat, now: int, serial: nat): Incoming {
    Incoming(header, total, seq(total, i => None), 0, Active, 0, now, 0, Collecting, serial)
  }

  function Refresh(i: Incoming, now: int): Incoming { i.(attempts := 0, status := Active, lastActivityAt := now) }

  /** handleChunk from the point where the record is known: store the part. */
  function StorePart(i: Incoming, index: nat, data: Bytes, now: int): Incoming
    requires index < |i.parts|
  {
    if i.phase != Collecting || i.parts[index].Some? then i
    else
      var r := Refresh(i, now).(parts := i.parts[index := Some(data)], received := i.received + 1,
                                sinceAck := i.sinceAck + 1);
      if r.received == r.total then r.(phase := Hashing) else r
  }

  /** The ack `handleChunk` sends after every `ackEvery` new parts resets the counter. */
  predicate AckDue(L: Limits, i: Incoming) { i.phase == Collecting && i.sinceAck >= L.ackEvery }

  function EmptyParts(i: Incoming): Incoming {
    i.(parts := seq(|i.parts|, j => None), received := 0, phase := Collecting)
  }

  function InStep(L: Limits, i: Incoming, ev: InEvent, env: Env): Option<Incoming> {
    match ev
    case PeerAsked => if i.phase != Collecting then Some(i) else Some(Refresh(i, env.now))
    case LinkUp => if i.phase != Collecting then Some(i) else Some(Refresh(i, env.now))
    case LinkDown => if i.status == Failed then Some(i) else Some(i.(status := Waiting))
    case UserRetry => if i.phase != Collecting then Some(i) else Some(Refresh(i, env.now))
    case Tick =>
      if i.phase != Collecting then Some(i)
      else if i.status == Failed then (if env.now - i.lastActivityAt > L.failedTtlMs then None else Some(i))
      else if env.now - i.lastActivityAt < Backoff(L, i.attempts) then Some(i)
      else if !env.canSend then Some(i.(lastActivityAt := env.now, status := Waiting))
      else if i.attempts + 1 > L.maxAttempts then
        Some(i.(lastActivityAt := env.now, attempts := i.attempts + 1, status := Failed))
      else Some(i.(lastActivityAt := env.now, attempts := i.attempts + 1, status := Active))
  }

  /** Whether the event makes the receiver ask for what it misses (an ack with `resend`). */
  predicate AsksResend(L: Limits, i: Incoming, ev: InEvent, env: Env) {
    i.phase == Collecting &&
    match ev
    case PeerAsked => true
    case LinkUp => env.canSend
    case LinkDown => false
    case UserRetry => true
    case Tick =>
      i.status != Failed && env.now - i.lastActivityAt >= Backoff(L, i.attempts) &&
      env.canSend && i.attempts + 1 <= L.maxAttempts
  }
}
