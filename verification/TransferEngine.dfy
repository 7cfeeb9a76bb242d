/** web/src/lib/relay/transfer.ts in its own form: one room's engine as an object whose
    handlers update its maps in place, each proved to take the state where TransferProtocol
    says. The protocol theorems are about those functions. */
module TransferEngines {
  import opened Wrappers
  import opened Chunking
  import opened TransferRecords
  import opened TransferHeld
  import opened TransferProtocol

  class TransferEngine {
    const limits: Limits
    var out: map<Id, Outgoing>
    var inc: map<Id, Incoming>
    var stored: map<Id, Bytes>
    var saving: map<nat, Save>
    var nextSerial: nat
    var sent: set<Msg>
    var handed: seq<(Id, Bytes)>
    var confirmed: set<Id>

    ghost function State(): Engine
      reads this
    {
      Engine(out, inc, stored, saving, nextSerial, sent, handed, confirmed)
    }

    constructor (limits: Limits)
      ensures State() == Idle() && this.limits == limits
    {
      this.limits := limits;
      out, inc, stored, saving, nextSerial := map[], map[], map[], map[], 0;
      sent, handed, confirmed := {}, [], {};
    }

    // ---- Sender -----------------------------------------------------------

    /** The loop of `pump` up to its next await: skips chunks already dealt with, gives up
        on an unusable link, or takes one chunk in hand. */
    method PumpUntilAwait(o: Outgoing, canSend: bool) returns (r: Outgoing)
      ensures r == PumpLoop(limits, o, canSend)
    {
      r := o;
      while r.status == Active && |r.queue| > 0 && |r.inFlight| < limits.window
        invariant PumpLoop(limits, r, canSend) == PumpLoop(limits, o, canSend)
        decreases |r.queue|
      {
        var index := r.queue[0];
        if index in r.acked || index in r.inFlight {
          r := r.(queue := r.queue[1..]);
        } else if !canSend {
          return r.(status := Waiting, pumping := false);
        } else {
          return r.(queue := r.queue[1..], hands := r.hands + [index]);
        }
      }
      r := r.(pumping := false);
    }

    method PumpRecord(o: Outgoing, canSend: bool) returns (r: Outgoing)
      ensures r == Pump(limits, o, canSend)
    {
      if o.pumping {
        r := o;
      } else {
        r := PumpUntilAwait(o.(pumping := true), canSend);
      }
    }

    /** Files the record an event leaves behind and posts what the event sends. */
    method Post(id: Id, before: Outgoing, after: Outgoing, ghost ev: OutEvent, kept: nat, asks: bool, ghost env: Env)
      requires after == OutStep(limits, before, ev, env)
      requires kept == StillSuspended(before, ev) && asks == Queries(limits, before, ev, env)
      modifies this
      ensures State() == AtOut(limits, old(State()), id, before, ev, env)
    {
      hide OutStep, Queries, ChunkOf;
      out := out[id := after];
      if |after.hands| > kept {
        sent := sent + {ChunkOf(id, after, after.hands[|after.hands| - 1])};
      }
      if asks {
        sent := sent + {Query(id)};
      }
    }

    /** startSend from the point where the digest is known. */
    method RegisterSend(id: Id, header: Header, data: Bytes, resume: bool, env: Env)
      modifies this
      ensures State() == Start(limits, old(State()), id, Payload(header, data), resume, env)
    {
      var o := NewOutgoing(header, data, resume, env.now);
      if resume {
        var r := o.(lastActivityAt := env.now, status := if env.canSend then o.status else Waiting);
        Post(id, o, r, Offered, |o.hands|, env.canSend, env);
      } else {
        var r := PumpRecord(o, env.canSend);
        Post(id, o, r, Started, |o.hands|, false, env);
      }
    }

    /** A suspended `pump` of a live record resumes after its send. */
    method PumpResumes(id: Id, k: nat, ok: bool, env: Env)
      modifies this
      ensures State() == if id in old(out) then AtOut(limits, old(State()), id, old(out)[id], SendResolved(k, ok), env)
                         else old(State())
    {
      if id !in out { return; }
      var o := out[id];
      if k >= |o.hands| {
        Post(id, o, o, SendResolved(k, ok), |o.hands|, false, env);
        return;
      }
      var index := o.hands[k];
      var r := o.(hands := o.hands[..k] + o.hands[k + 1..]);
      if !ok {
        r := r.(queue := [index] + r.queue, status := Waiting, pumping := false);
      } else {
        r := r.(lastActivityAt := env.now);
        if index !in r.acked {
          r := r.(inFlight := r.inFlight[index := env.now]);
        }
        r := PumpUntilAwait(r, env.canSend);
      }
      Post(id, o, r, SendResolved(k, ok), |o.hands| - 1, false, env);
    }

    /** The loop over the acknowledged indices. */
    method AddAcked(o: Outgoing, have: seq<nat>) returns (acked: set<nat>, inFlight: map<nat, int>)
      ensures acked == o.acked + Known(have, o.total)
      ensures inFlight == o.inFlight - Known(have, o.total)
    {
      acked, inFlight := o.acked, o.inFlight;
      for k := 0 to |have|
        invariant acked == o.acked + Known(have[..k], o.total)
        invariant inFlight == o.inFlight - Known(have[..k], o.total)
      {
        var i := have[k];
        assert forall j :: j in have[..k + 1] <==> j in have[..k] || j == i;
        if i < o.total {
          acked := acked + {i};
          inFlight := inFlight - {i};
        }
      }
      assert have[..|have|] == have;
    }

    /** The loop that takes chunks sent at least `stallMs` ago out of the flight. */
    method DropStale(flying: map<nat, int>, now: int) returns (inFlight: map<nat, int>)
      ensures inFlight == Recent(limits, flying, now)
    {
      inFlight := flying;
      var todo := flying.Keys;
      while todo != {}
        invariant todo <= flying.Keys
        invariant inFlight == map i | i in flying && (i in todo || now - flying[i] < limits.stallMs) :: flying[i]
        decreases todo
      {
        var i :| i in todo;
        if now - flying[i] >= limits.stallMs {
          inFlight := inFlight - {i};
        }
        todo := todo - {i};
      }
    }

    /** The filter that queues whatever is neither acknowledged nor in flight. */
    method QueueRest(total: nat, acked: set<nat>, inFlight: map<nat, int>) returns (queue: seq<nat>)
      ensures queue == Unheld(total, acked, inFlight.Keys)
    {
      queue := [];
      for i := 0 to total
        invariant queue == Unheld(i, acked, inFlight.Keys)
      {
        if i !in acked && i !in inFlight {
          queue := queue + [i];
        }
      }
    }

    /** The ack handler up to its call of `pump`. */
    method Absorb(o: Outgoing, have: seq<nat>, resend: bool, now: int) returns (r: Outgoing)
      ensures r == AbsorbAck(limits, o, have, resend, now)
    {
      var acked, inFlight := AddAcked(o, have);
      r := o.(acked := acked, inFlight := inFlight, lastActivityAt := now,
              attempts := if |acked| > |o.acked| then 0 else o.attempts);
      if resend {
        inFlight := DropStale(inFlight, now);
        var queue := QueueRest(o.total, acked, inFlight);
        r := r.(inFlight := inFlight, queue := queue, status := Active);
      }
    }

    method HandleAck(a: Msg, env: Env)
      requires a.Ack?
      modifies this
      ensures State() == TransferProtocol.HandleAck(limits, old(State()), a, env)
    {
      if a.id !in out {
        if a.resend && !a.done {
          sent := sent + {Cancel(a.id)};
        }
        return;
      }
      if a.done {
        out := out - {a.id};
        confirmed := confirmed + {a.id};
        return;
      }
      var o := out[a.id];
      var r := Absorb(o, a.have, a.resend, env.now);
      r := PumpRecord(r, env.canSend);
      Post(a.id, o, r, Acked(a.have, a.resend), |o.hands|, false, env);
    }

    method HandleCancel(id: Id, env: Env)
      modifies this
      ensures State() == TransferProtocol.HandleCancel(limits, old(State()), id, env)
    {
      if id in out {
        var o := out[id];
        Post(id, o, o.(status := Failed, inFlight := map[], queue := []), Cancelled, |o.hands|, false, env);
      }
      inc := inc - {id};
    }

    // ---- Receiver ---------------------------------------------------------

    /** The indices an ack lists. */
    method CollectHeld(parts: seq<Option<Bytes>>) returns (have: seq<nat>)
      ensures have == Held(parts)
    {
      have := [];
      for k := 0 to |parts|
        invariant have == Held(parts[..k])
      {
        assert parts[..k + 1][..k] == parts[..k];
        if parts[k].Some? {
          have := have + [k];
        }
      }
      assert parts[..|parts|] == parts;
    }

    method HandleQuery(id: Id, env: Env)
      modifies this
      ensures State() == TransferProtocol.HandleQuery(limits, old(State()), id, env)
    {
      if id in inc {
        var i := inc[id];
        if i.phase != Collecting {
          assert inc == inc[id := i];
          return;
        }
        inc := inc[id := i.(attempts := 0, status := Active, lastActivityAt := env.now)];
        var have := CollectHeld(i.parts);
        sent := sent + {Ack(id, have, true, false)};
        return;
      }
      sent := sent + {Ack(id, [], id !in stored, id in stored)};
    }

    /** Sums the announced sizes of the pending transfers, in any order. */
    method SumPending() returns (total: nat)
      ensures total == PendingBytes(inc)
    {
      total := 0;
      var rest := inc;
      while rest != map[]
        invariant total + PendingBytes(rest) == PendingBytes(inc)
        decreases |rest|
      {
        var id :| id in rest;
        PendingWithout(rest, id);
        assert (rest - {id}).Keys == rest.Keys - {id};
        total := total + rest[id].header.size;
        rest := rest - {id};
      }
    }

    /** handleChunk at a known record. */
    method StoreChunk(c: Msg, i: Incoming, env: Env)
      requires c.Chunk?
      modifies this
      ensures State() == AcceptChunk(limits, old(State()), i, c, env)
    {
      hide Held, SameHeader;
      if !SameHeader(i.header, c.header) || i.total != c.total || c.index >= |i.parts| { return; }
      if i.phase != Collecting || i.parts[c.index].Some? {
        inc := inc[c.id := i];
        return;
      }
      var r := i.(parts := i.parts[c.index := Some(c.data)], received := i.received + 1, sinceAck := i.sinceAck + 1,
                  attempts := 0, status := Active, lastActivityAt := env.now);
      if r.received == r.total {
        inc := inc[c.id := r.(phase := Hashing)];
        return;
      }
      if r.sinceAck >= limits.ackEvery {
        inc := inc[c.id := r.(sinceAck := 0)];
        var have := CollectHeld(r.parts);
        sent := sent + {Ack(c.id, have, false, false)};
      } else {
        inc := inc[c.id := r];
      }
    }

    method HandleChunk(c: Msg, env: Env)
      requires Decodes(c) && c.Chunk?
      modifies this
      ensures State() == TransferProtocol.HandleChunk(limits, old(State()), c, env)
    {
      hide AcceptChunk, Decodes, PendingBytes;
      if c.id in inc {
        StoreChunk(c, inc[c.id], env);
        return;
      }
      if c.id in out { return; }
      if c.id in stored {
        sent := sent + {Ack(c.id, [], false, true)};
        return;
      }
      var pendingBytes := SumPending();
      if |inc| >= limits.maxIncomingPerRoom || pendingBytes + c.header.size > limits.maxIncomingBytesPerRoom {
        sent := sent + {Cancel(c.id)};
        return;
      }
      var i := NewIncoming(c.header, c.total, env.now, nextSerial);
      nextSerial := nextSerial + 1;
      StoreChunk(c, i, env);
    }

    /** `complete` up to the digest's arrival and on to `deliver`, copying the parts into one
        buffer of the announced size. */
    method CompleteHash(id: Id, env: Env)
      modifies this
      ensures State() == HashResolved(old(State()), id, env)
    {
      if id !in inc || inc[id].phase != Hashing { return; }
      var i := inc[id];
      var ok, data := Assemble(Payloads(i.parts), i.header.size);
      if ok && Sha256(data[..]) == i.header.sha256 {
        inc := inc[id := i.(phase := Saving)];
        saving := saving[i.serial := Save(id, data[..], i.total, false)];
        handed := handed + [(id, data[..])];
        return;
      }
      var r := EmptyParts(i).(attempts := i.attempts + 1, sinceAck := 0);
      if r.attempts > 2 {
        inc := inc - {id};
        sent := sent + {Cancel(id)};
      } else {
        inc := inc[id := r.(lastActivityAt := env.now)];
        var have := CollectHeld(r.parts);
        sent := sent + {Ack(id, have, true, false)};
      }
    }

    /** The deliver call of a completed transfer settles. */
    method DeliverSettles(s: nat, ok: bool, env: Env)
      modifies this
      ensures State() == SaveSettles(old(State()), s, ok, env)
    {
      if s !in saving || (ok && !saving[s].visible) { return; }
      var v := saving[s];
      saving := saving - {s};
      if ok {
        inc := inc - {v.id};
        sent := sent + {Ack(v.id, Upto(v.total), false, true)};
      } else if v.id in inc && inc[v.id].serial == s {
        inc := inc[v.id := EmptyParts(inc[v.id]).(status := Failed, lastActivityAt := env.now)];
      }
    }

    // ---- Lifecycle --------------------------------------------------------

    method UpdateOut(o: Outgoing, ev: OutEvent, env: Env) returns (r: Outgoing, asks: bool)
      requires ev.Connected? || ev.Disconnected? || ev.Ticked?
      ensures r == OutStep(limits, o, ev, env) && asks == Queries(limits, o, ev, env)
    {
      r, asks := o, false;
      match ev {
        case Connected =>
          r := r.(attempts := 0, status := Active, inFlight := map[], lastActivityAt := env.now);
          if env.canSend { asks := true; } else { r := r.(status := Waiting); }
        case Disconnected =>
          if o.status != Failed { r := r.(inFlight := map[], status := Waiting); }
        case Ticked =>
          if o.status == Failed || o.pumping { return; }
          if o.status == Waiting {
            if env.canSend {
              r, asks := r.(status := Active, lastActivityAt := env.now), true;
            }
            return;
          }
          if |o.queue| > 0 && |o.inFlight| < limits.window {
            r := PumpRecord(o, env.canSend);
            return;
          }
          if env.now - o.lastActivityAt < Backoff(limits, o.attempts) { return; }
          r := r.(attempts := o.attempts + 1);
          if r.attempts > limits.maxAttempts {
            r := r.(status := Failed, inFlight := map[]);
          } else {
            r := r.(lastActivityAt := env.now);
            if env.canSend { asks := true; } else { r := r.(status := Waiting); }
          }
      }
    }

    /** The loop over a room's outgoing records. */
    method EachOut(ev: OutEvent, env: Env)
      requires ev.Connected? || ev.Disconnected? || ev.Ticked?
      modifies this
      ensures State() == AtAllOut(limits, old(State()), ev, env)
    {
      hide OutStep, OutMsgs, Queries;
      var before := out;
      var todo := before.Keys;
      while todo != {}
        invariant todo <= before.Keys
        invariant out == map id | id in before :: if id in todo then before[id] else OutStep(limits, before[id], ev, env)
        invariant sent == old(sent) + OutPosts(limits, before, before.Keys - todo, ev, env)
        invariant State() == old(State()).(out := out, sent := sent)
        decreases todo
      {
        var id :| id in todo;
        var r, asks := UpdateOut(before[id], ev, env);
        Post(id, before[id], r, ev, |before[id].hands|, asks, env);
        assert before.Keys - (todo - {id}) == (before.Keys - todo) + {id};
        OutPostsGrow(limits, before, before.Keys - todo, id, ev, env);
        todo := todo - {id};
      }
      assert before.Keys - {} == before.Keys;
    }

    /** What a lifecycle event does to an incoming record, and whether it asks for a resend. */
    method UpdateRecord(i: Incoming, ev: InEvent, env: Env) returns (r: Option<Incoming>, asks: bool)
      ensures r == InStep(limits, i, ev, env) && asks == AsksResend(limits, i, ev, env)
    {
      r, asks := Some(i), false;
      if ev.LinkDown? {
        if i.status != Failed { r := Some(i.(status := Waiting)); }
        return;
      }
      if i.phase != Collecting { return; }
      if !ev.Tick? {
        r := Some(i.(attempts := 0, status := Active, lastActivityAt := env.now));
        asks := !ev.LinkUp? || env.canSend;
        return;
      }
      if i.status == Failed {
        if env.now - i.lastActivityAt > limits.failedTtlMs { r := None; }
        return;
      }
      if env.now - i.lastActivityAt < Backoff(limits, i.attempts) { return; }
      var n := i.(lastActivityAt := env.now);
      if !env.canSend {
        return Some(n.(status := Waiting)), false;
      }
      n := n.(attempts := n.attempts + 1);
      if n.attempts > limits.maxAttempts {
        return Some(n.(status := Failed)), false;
      }
      return Some(n.(status := Active)), true;
    }

    /** One incoming record: a resend ack if one is due, then its new state or its removal. */
    method UpdateIn(id: Id, i: Incoming, ev: InEvent, env: Env)
      modifies this
      ensures State() == AtIn(limits, old(State()), id, i, ev, env)
    {
      hide InStep, AsksResend, Held;
      var r, asks := UpdateRecord(i, ev, env);
      if asks {
        var have := CollectHeld(i.parts);
        sent := sent + {Ack(id, have, true, false)};
      }
      if r.Some? {
        inc := inc[id := r.value];
      } else {
        inc := inc - {id};
      }
    }

    /** The loop over a room's incoming records. */
    method EachIn(ev: InEvent, env: Env)
      modifies this
      ensures State() == AtAllIn(limits, old(State()), ev, env)
    {
      hide InStep, InMsgs;
      var before := inc;
      var todo := before.Keys;
      while todo != {}
        invariant todo <= before.Keys
        invariant inc == InMix(limits, before, todo, ev, env)
        invariant sent == old(sent) + InPosts(limits, before, before.Keys - todo, ev, env)
        invariant State() == old(State()).(inc := inc, sent := sent)
        decreases todo
      {
        var id :| id in todo;
        UpdateIn(id, before[id], ev, env);
        InMixStep(limits, before, todo, id, ev, env);
        assert before.Keys - (todo - {id}) == (before.Keys - todo) + {id};
        InPostsGrow(limits, before, before.Keys - todo, id, ev, env);
        todo := todo - {id};
      }
      assert before.Keys - {} == before.Keys;
    }

    method OnConnected(env: Env)
      modifies this
      ensures State() == Step(limits, old(State()), Act.OnConnected, env)
    {
      EachOut(Connected, env);
      EachIn(LinkUp, env);
    }

    method OnDisconnected(env: Env)
      modifies this
      ensures State() == Step(limits, old(State()), Act.OnDisconnected, env)
    {
      EachOut(Disconnected, env);
      EachIn(LinkDown, env);
    }

    method Tick(env: Env)
      modifies this
      ensures State() == Step(limits, old(State()), TimerTick, env)
    {
      EachOut(Ticked, env);
      EachIn(InEvent.Tick, env);
    }

    method Retry(id: Id, env: Env)
      modifies this
      ensures State() == Step(limits, old(State()), Act.Retry(id), env)
    {
      if id in out {
        var o := out[id];
        var r := o.(attempts := 0, status := Active, inFlight := map[], lastActivityAt := env.now);
        if !env.canSend { r := r.(status := Waiting); }
        Post(id, o, r, Retried, |o.hands|, env.canSend, env);
      }
      if id in inc {
        UpdateIn(id, inc[id], UserRetry, env);
      }
    }

    method CancelByUser(id: Id, env: Env)
      modifies this
      ensures State() == Step(limits, old(State()), Act.CancelByUser(id), env)
    {
      if id in out || id in inc {
        out := out - {id};
        inc := inc - {id};
        sent := sent + {Cancel(id)};
      }
    }
  }

  /** What an event makes the given outgoing records send. */
  ghost function OutPosts(L: Limits, m: map<Id, Outgoing>, ids: set<Id>, ev: OutEvent, env: Env): set<Msg> {
    set id, q | id in ids && id in m && q in OutMsgs(L, id, m[id], ev, env) :: q
  }

  lemma OutPostsGrow(L: Limits, m: map<Id, Outgoing>, ids: set<Id>, id: Id, ev: OutEvent, env: Env)
    requires id in m
    ensures OutPosts(L, m, ids + {id}, ev, env) == OutPosts(L, m, ids, ev, env) + OutMsgs(L, id, m[id], ev, env)
  {
    hide OutMsgs;
  }

  /** The incoming records while the loop has still to visit `todo`. */
  ghost function InMix(L: Limits, m: map<Id, Incoming>, todo: set<Id>, ev: InEvent, env: Env): map<Id, Incoming> {
    map id | id in m && (id in todo || InStep(L, m[id], ev, env).Some?) ::
      if id in todo then m[id] else InStep(L, m[id], ev, env).value
  }

  lemma InMixStep(L: Limits, m: map<Id, Incoming>, todo: set<Id>, id: Id, ev: InEvent, env: Env)
    requires id in m && id in todo
    ensures var r := InStep(L, m[id], ev, env);
            InMix(L, m, todo - {id}, ev, env) ==
            if r.Some? then InMix(L, m, todo, ev, env)[id := r.value] else InMix(L, m, todo, ev, env) - {id}
  {
  }

  ghost function InPosts(L: Limits, m: map<Id, Incoming>, ids: set<Id>, ev: InEvent, env: Env): set<Msg> {
    set id, q | id in ids && id in m && q in InMsgs(L, id, m[id], ev, env) :: q
  }

  lemma InPostsGrow(L: Limits, m: map<Id, Incoming>, ids: set<Id>, id: Id, ev: InEvent, env: Env)
    requires id in m
    ensures InPosts(L, m, ids + {id}, ev, env) == InPosts(L, m, ids, ev, env) + InMsgs(L, id, m[id], ev, env)
  {
  }

  /** The announced bytes of a set of transfers do not depend on the order of the sum. */
  lemma {:induction false} PendingWithout(m: map<Id, Incoming>, id: Id)
    requires id in m
    ensures PendingBytes(m) == m[id].header.size + PendingBytes(m - {id})
    decreases |m|
  {
    var x :| x in m && PendingBytes(m) == m[x].header.size + PendingBytes(m - {x});
    if x != id {
      assert (m - {x}).Keys == m.Keys - {x} && (m - {id}).Keys == m.Keys - {id};
      PendingWithout(m - {x}, id);
      PendingWithout(m - {id}, x);
      assert m - {x} - {id} == m - {id} - {x};
    }
  }
}
