/** Completion of a transfer as a run of the two engines: from any reachable state, rounds of
    messages that are not lost bring the missing parts, and the payload is stored and confirmed. */
module TransferCompletion {
  import opened Wrappers
  import opened Chunking
  import opened TransferRecords
  import opened TransferHeld
  import opened TransferSender
  import opened TransferProtocol
  import opened TransferSafety
  import opened TransferRuns
  import opened TransferOnce
  import opened TransferProgress

  // ---- Continuing a run ---------------------------------------------------

  ghost function RunFrom(L: Limits, s: Sys, evs: seq<Event>): Sys
    decreases |evs|
  {
    if evs == [] then s else RunFrom(L, Apply(L, s, evs[0]), evs[1..])
  }

  ghost predicate LegalFrom(L: Limits, s: Sys, evs: seq<Event>, ca: Catalog, cb: Catalog)
    decreases |evs|
  {
    evs != [] ==> Possible(s, evs[0], ca, cb) && LegalFrom(L, Apply(L, s, evs[0]), evs[1..], ca, cb)
  }

  lemma {:induction false} RunOn(L: Limits, evs: seq<Event>, more: seq<Event>, ca: Catalog, cb: Catalog)
    requires Legal(L, evs, ca, cb) && LegalFrom(L, Run(L, evs), more, ca, cb)
    ensures Legal(L, evs + more, ca, cb) && Run(L, evs + more) == RunFrom(L, Run(L, evs), more)
    decreases |more|
  {
    hide Apply, Possible;
    if more == [] {
      assert evs + more == evs;
    } else {
      assert (evs + [more[0]])[..|evs|] == evs;
      RunOn(L, evs + [more[0]], more[1..], ca, cb);
      assert evs + [more[0]] + more[1..] == evs + more;
    }
  }

  lemma {:induction false} FromConcat(L: Limits, s: Sys, xs: seq<Event>, ys: seq<Event>, ca: Catalog, cb: Catalog)
    requires LegalFrom(L, s, xs, ca, cb) && LegalFrom(L, RunFrom(L, s, xs), ys, ca, cb)
    ensures LegalFrom(L, s, xs + ys, ca, cb) && RunFrom(L, s, xs + ys) == RunFrom(L, RunFrom(L, s, xs), ys)
    decreases |xs|
  {
    hide Apply, Possible;
    if xs == [] {
      assert xs + ys == ys;
    } else {
      assert (xs + ys)[1..] == xs[1..] + ys;
      FromConcat(L, Apply(L, s, xs[0]), xs[1..], ys, ca, cb);
    }
  }

  lemma FromOne(L: Limits, s: Sys, ev: Event, ca: Catalog, cb: Catalog)
    requires Possible(s, ev, ca, cb)
    ensures LegalFrom(L, s, [ev], ca, cb) && RunFrom(L, s, [ev]) == Apply(L, s, ev)
  {
    hide Apply, Possible;
    assert [ev][1..] == [];
  }

  lemma {:induction false} FromIsSound(L: Limits, s: Sys, evs: seq<Event>, ca: Catalog, cb: Catalog)
    requires CatalogOk(ca) && OneWay(L, s.a, s.b, ca) && LegalFrom(L, s, evs, ca, cb)
    ensures OneWay(L, RunFrom(L, s, evs).a, RunFrom(L, s, evs).b, ca)
    decreases |evs|
  {
    hide OneWay, Step;
    if evs != [] {
      var ev := evs[0];
      if ev.atA { OneWayStep(L, s.a, s.b, ev.act, ev.env, ca); } else { OtherWayStep(L, s.a, s.b, ev.act, ev.env, ca); }
      FromIsSound(L, Apply(L, s, ev), evs[1..], ca, cb);
    }
  }

  /** Messages arrive, sends and saves succeed, and the timer ticks: nobody helps. */
  predicate OfItself(act: Act) {
    act.Receive? || act.PumpReturns? || act.HashDone? || act.SaveVisible? || act.SaveDone? || act.TimerTick?
  }

  ghost predicate Unaided(evs: seq<Event>) { forall k :: 0 <= k < |evs| ==> OfItself(evs[k].act) }

  lemma UnaidedJoins(xs: seq<Event>, ys: seq<Event>)
    requires Unaided(xs) && Unaided(ys)
    ensures Unaided(xs + ys)
  {
    hide OfItself;
  }

  // ---- What reachable states are like -------------------------------------

  /** The chunk in the hand of every suspended pump has been sent. */
  ghost predicate HandsSent(e: Engine) {
    forall id, h :: id in e.out && h in e.out[id].hands ==> ChunkOf(id, e.out[id], h) in e.sent
  }

  /** A suspended pump stays where it is until its send resolves. */
  lemma SuspendedStays(L: Limits, o: Outgoing, ev: OutEvent, env: Env)
    requires OutOk(L, o) && |o.hands| == 1 && !(ev.SendResolved? && ev.k < |o.hands|)
    ensures OutStep(L, o, ev, env).hands == o.hands
  {
    hide PumpLoop, Known, Recent, Unheld, Backoff;
  }

  lemma HandsKept(L: Limits, o: Outgoing, ev: OutEvent, env: Env)
    requires OutOk(L, o) && OutOk(L, OutStep(L, o, ev, env))
    ensures var r := OutStep(L, o, ev, env);
            forall h :: h in r.hands ==>
              h in o.hands || (|r.hands| > StillSuspended(o, ev) && h == r.hands[|r.hands| - 1])
  {
    if |o.hands| == 1 && !(ev.SendResolved? && ev.k < |o.hands|) { SuspendedStays(L, o, ev, env); }
    hide OutStep;
  }

  lemma OutHandsSent(L: Limits, id: Id, o: Outgoing, ev: OutEvent, env: Env, sent: set<Msg>, h: nat)
    requires OutOk(L, o) && forall k :: k in o.hands ==> ChunkOf(id, o, k) in sent
    requires h in OutStep(L, o, ev, env).hands
    ensures ChunkOf(id, OutStep(L, o, ev, env), h) in sent + OutMsgs(L, id, o, ev, env)
  {
    StepKeeps(L, o, ev, env);
    HandsKept(L, o, ev, env);
    OutStepFrame(L, o, ev, env);
    hide OutStep, Queries, StillSuspended, OutOk;
  }

  lemma AtOutHandsSent(L: Limits, e: Engine, id: Id, o: Outgoing, ev: OutEvent, env: Env)
    requires HandsSent(e) && OutOk(L, o) && forall k :: k in o.hands ==> ChunkOf(id, o, k) in e.sent
    ensures HandsSent(AtOut(L, e, id, o, ev, env))
  {
    hide OutStep, OutMsgs, ChunkOf, OutOk;
    var e' := AtOut(L, e, id, o, ev, env);
    forall j, h | j in e'.out && h in e'.out[j].hands ensures ChunkOf(j, e'.out[j], h) in e'.sent {
      if j == id { OutHandsSent(L, id, o, ev, env, e.sent, h); }
    }
  }

  lemma AllOutHandsSent(L: Limits, e: Engine, ev: OutEvent, env: Env)
    requires HandsSent(e) && forall id :: id in e.out ==> OutOk(L, e.out[id])
    ensures HandsSent(AtAllOut(L, e, ev, env))
  {
    hide OutStep, OutMsgs, ChunkOf, OutOk;
    var e' := AtAllOut(L, e, ev, env);
    forall j, h | j in e'.out && h in e'.out[j].hands ensures ChunkOf(j, e'.out[j], h) in e'.sent {
      OutHandsSent(L, j, e.out[j], ev, env, e.sent, h);
      var m := ChunkOf(j, e'.out[j], h);
      assert m in e.sent || m in OutMsgs(L, j, e.out[j], ev, env);
    }
  }

  /** The outgoing records stay, go, or are the same, and nothing sent is taken back. */
  ghost predicate OutKept(e: Engine, e': Engine) {
    e.sent <= e'.sent && forall id :: id in e'.out ==> id in e.out && e'.out[id] == e.out[id]
  }

  lemma OutKeptHandsSent(e: Engine, e': Engine)
    requires HandsSent(e) && OutKept(e, e')
    ensures HandsSent(e')
  {
    hide ChunkOf;
  }

  lemma HandsSentReceives(L: Limits, e: Engine, m: Msg, env: Env, cx: Catalog)
    requires HandsSent(e) && SenderInv(L, e, cx)
    ensures HandsSent(Step(L, e, Receive(m), env))
  {
    hide Step, HandsSent, SenderInv;
    match m
    case Ack(_, _, _, _) => HandsSentAck(L, e, m, env, cx);
    case Cancel(_) => HandsSentCancel(L, e, m, env, cx);
    case Chunk(_, _, _, _, _) => ChunkKeepsOut(L, e, m, env); OutKeptHandsSent(e, Step(L, e, Receive(m), env));
    case Query(_) => QueryKeepsOut(L, e, m, env); OutKeptHandsSent(e, Step(L, e, Receive(m), env));
  }

  lemma HandsSentAck(L: Limits, e: Engine, m: Msg, env: Env, cx: Catalog)
    requires m.Ack? && HandsSent(e) && SenderInv(L, e, cx)
    ensures HandsSent(Step(L, e, Receive(m), env))
  {
    hide AtOut, HandsSent, Decodes, OutOk, SenderInv;
    if m.id in e.out && !m.done {
      OutOfHandsSent(L, e, m.id, cx);
      AtOutHandsSent(L, e, m.id, e.out[m.id], Acked(m.have, m.resend), env);
    } else { OutKeptHandsSent(e, Step(L, e, Receive(m), env)); }
  }

  lemma HandsSentCancel(L: Limits, e: Engine, m: Msg, env: Env, cx: Catalog)
    requires m.Cancel? && HandsSent(e) && SenderInv(L, e, cx)
    ensures HandsSent(Step(L, e, Receive(m), env))
  {
    hide AtOut, HandsSent, OutOk, SenderInv;
    var e' := Step(L, e, Receive(m), env);
    if m.id in e.out {
      OutOfHandsSent(L, e, m.id, cx);
      AtOutHandsSent(L, e, m.id, e.out[m.id], Cancelled, env);
      OutKeptHandsSent(AtOut(L, e, m.id, e.out[m.id], Cancelled, env), e');
    } else { OutKeptHandsSent(e, e'); }
  }

  lemma QueryKeepsOut(L: Limits, e: Engine, m: Msg, env: Env)
    requires m.Query?
    ensures OutKept(e, Step(L, e, Receive(m), env))
  {
    hide InStep, InMsgs;
  }

  lemma OutOfHandsSent(L: Limits, e: Engine, id: Id, cx: Catalog)
    requires HandsSent(e) && SenderInv(L, e, cx) && id in e.out
    ensures OutOk(L, e.out[id]) && forall k :: k in e.out[id].hands ==> ChunkOf(id, e.out[id], k) in e.sent
  {
    hide ChunkOf;
  }

  lemma ChunkKeepsOut(L: Limits, e: Engine, c: Msg, env: Env)
    requires c.Chunk?
    ensures OutKept(e, Step(L, e, Receive(c), env))
  {
    hide Decodes, Busy, StorePart, Held, SameHeader, AckDue;
  }

  lemma HandsSentStep(L: Limits, e: Engine, act: Act, env: Env, cx: Catalog)
    requires HandsSent(e) && SenderInv(L, e, cx)
    ensures HandsSent(Step(L, e, act, env))
  {
    hide OutStep, OutMsgs, HandsSent, InStep, InMsgs, HandleAck, HandleCancel, HandleQuery, HandleChunk, HashResolved,
         SaveSettles, SaveShows, OutOk, ChunkOf, Decodes;
    var e' := Step(L, e, act, env);
    assert forall id :: id in e.out ==> OutOk(L, e.out[id]);
    match act {
      case Begin(id, p, resume) =>
        NewIsOk(L, p, resume, env.now);
        AtOutHandsSent(L, e, id, NewOutgoing(p.header, p.data, resume, env.now), if resume then Offered else Started, env);
      case PumpReturns(id, k, ok) =>
        if id in e.out {
          OutOfHandsSent(L, e, id, cx);
          AtOutHandsSent(L, e, id, e.out[id], SendResolved(k, ok), env);
        }
      case Receive(m) => HandsSentReceives(L, e, m, env, cx);
      case OnConnected => AllOutHandsSent(L, e, Connected, env); OutKeptHandsSent(AtAllOut(L, e, Connected, env), e');
      case OnDisconnected =>
        AllOutHandsSent(L, e, Disconnected, env);
        OutKeptHandsSent(AtAllOut(L, e, Disconnected, env), e');
      case TimerTick => AllOutHandsSent(L, e, Ticked, env); OutKeptHandsSent(AtAllOut(L, e, Ticked, env), e');
      case Retry(id) => HandsSentRetry(L, e, id, env, cx);
      case _ => OthersKeepOut(L, e, act, env); OutKeptHandsSent(e, e');
    }
  }

  lemma HandsSentRetry(L: Limits, e: Engine, id: Id, env: Env, cx: Catalog)
    requires HandsSent(e) && SenderInv(L, e, cx)
    ensures HandsSent(Step(L, e, Retry(id), env))
  {
    hide AtOut, HandsSent, InStep, InMsgs, OutOk, SenderInv;
    var e' := Step(L, e, Retry(id), env);
    if id in e.out {
      OutOfHandsSent(L, e, id, cx);
      AtOutHandsSent(L, e, id, e.out[id], Retried, env);
      OutKeptHandsSent(AtOut(L, e, id, e.out[id], Retried, env), e');
    } else { OutKeptHandsSent(e, e'); }
  }

  lemma NewIsOk(L: Limits, p: Payload, resume: bool, now: int)
    ensures var o := NewOutgoing(p.header, p.data, resume, now); OutOk(L, o) && o.hands == []
  {
  }

  lemma OthersKeepOut(L: Limits, e: Engine, act: Act, env: Env)
    requires act.HashDone? || act.SaveVisible? || act.SaveDone? || act.StorageRefused? || act.CancelByUser? || act.Forget?
             || act.Clear?
    ensures OutKept(e, Step(L, e, act, env))
  {
    hide Flatten, Payloads, Held, Upto, EmptyParts;
  }

  lemma {:induction false} RunHandsSent(L: Limits, evs: seq<Event>, ca: Catalog, cb: Catalog)
    requires CatalogOk(ca) && CatalogOk(cb) && Legal(L, evs, ca, cb)
    ensures HandsSent(Run(L, evs).a) && HandsSent(Run(L, evs).b)
    decreases |evs|
  {
    hide Step, HandsSent;
    if evs == [] {
      IdleSentHands();
    } else {
      var k := |evs| - 1;
      RunHandsSent(L, evs[..k], ca, cb);
      RunsAreSound(L, evs[..k], ca, cb);
      var s, ev := Run(L, evs[..k]), evs[k];
      SenderHalf(L, s, ca, cb);
      hide OneWay;
      HandsSentStep(L, if ev.atA then s.a else s.b, ev.act, ev.env, if ev.atA then ca else cb);
    }
  }

  /** In runs that discard nothing, nothing interrupts a save either. */
  lemma {:induction false} ReachableIsOnce(L: Limits, evs: seq<Event>, ca: Catalog, cb: Catalog)
    requires Legal(L, evs, ca, cb) && NothingDiscarded(L, evs)
    ensures OnceInv(Run(L, evs).a) && OnceInv(Run(L, evs).b)
    decreases |evs|
  {
    hide Step, OnceInv, Discards;
    if evs == [] {
      IdleOnce();
    } else {
      var k := |evs| - 1;
      assert forall j :: 0 <= j < k ==> evs[..k][..j] == evs[..j];
      ReachableIsOnce(L, evs[..k], ca, cb);
      var s, ev := Run(L, evs[..k]), evs[k];
      var e := if ev.atA then s.a else s.b;
      InterruptsDiscard(L, e, ev.act, ev.env);
      OnceStep(L, e, ev.act, ev.env);
    }
  }

  lemma SenderHalf(L: Limits, s: Sys, ca: Catalog, cb: Catalog)
    requires OneWay(L, s.a, s.b, ca) && OneWay(L, s.b, s.a, cb)
    ensures SenderInv(L, s.a, ca) && SenderInv(L, s.b, cb)
  {
  }

  lemma InterruptsDiscard(L: Limits, e: Engine, act: Act, env: Env)
    ensures Interrupts(e, act) ==> Discards(L, e, act, env)
  {
  }

  lemma IdleSentHands()
    ensures HandsSent(Idle())
  {
  }

  /** Every chunk in flight that the receiver lacks was sent at least `stallMs` ago. */
  ghost predicate Aged(L: Limits, o: Outgoing, i: Incoming, now: int) {
    forall j :: j in o.inFlight && j !in HeldSet(i) ==> now - o.inFlight[j] >= L.stallMs
  }

  /** A transfer both ends of which are collecting. */
  ghost predicate Collects(s: Sys, id: Id) { id in s.a.out && id in s.b.inc && s.b.inc[id].phase == Collecting }

  /** The transfer is under way, with the payload the catalog names. */
  ghost predicate Live(L: Limits, s: Sys, id: Id, ca: Catalog, now: int) {
    && Collects(s, id) && id in ca
    && OutMatches(L, s.a.out[id], ca[id]) && InMatches(s.b.inc[id], ca[id])
    && UnderWay(L, s.a.out[id], s.b.inc[id], now) && HandsSent(s.a)
  }

  /** Every reachable state of a transfer that both ends are collecting is under way: what a round
      starts from is an invariant, but for the age of what is in flight. */
  lemma ReachableIsUnderWay(L: Limits, evs: seq<Event>, ca: Catalog, cb: Catalog, id: Id, now: int)
    requires CatalogOk(ca) && CatalogOk(cb) && Legal(L, evs, ca, cb) && NothingDiscarded(L, evs)
    requires Collects(Run(L, evs), id)
    ensures Live(L, Run(L, evs), id, ca, now) <==> Aged(L, Run(L, evs).a.out[id], Run(L, evs).b.inc[id], now)
  {
    RunsAreSound(L, evs, ca, cb);
    AcksAreSound(L, evs, ca, cb);
    ReachableIsOnce(L, evs, ca, cb);
    RunHandsSent(L, evs, ca, cb);
    hide Run, Legal, NothingDiscarded, HandsSent;
    var s := Run(L, evs);
    NotYetStored(s.b, id);
    assert id in ca && OutMatches(L, s.a.out[id], ca[id]) && InMatches(s.b.inc[id], ca[id]);
    forall k | k in s.a.out[id].acked ensures k in HeldSet(s.b.inc[id]) { assert Holds(s.b, id, k); }
    hide OneWay, AcksHeld, OnceInv, OutOk, Held;
  }

  lemma NotYetStored(e: Engine, id: Id)
    requires OnceInv(e) && id in e.inc && e.inc[id].phase == Collecting
    ensures id !in e.stored
  {
  }

  // ---- Asking for what is missing -----------------------------------------

  /** The receiver has asked for what it lacks now. */
  ghost predicate Asked(s: Sys, id: Id)
    requires id in s.b.inc
  {
    AckFor(id, s.b.inc[id], true) in s.b.sent
  }

  /** The receiver's events that make it ask: a query from the peer, the user's retry, a reconnection, or
      a timer tick once the stall limit is over. */
  ghost predicate Asks(L: Limits, s: Sys, id: Id, ev: Event)
    requires id in s.b.inc
  {
    && !ev.atA
    && match ev.act
       case Receive(m) => m == Query(id) && m in s.a.sent
       case Retry(j) => j == id
       case OnConnected => ev.env.canSend
       case TimerTick => AsksResend(L, s.b.inc[id], Tick, ev.env)
       case _ => false
  }

  lemma InStepAsked(L: Limits, i: Incoming, ev: InEvent, env: Env)
    requires AsksResend(L, i, ev, env)
    ensures var r := InStep(L, i, ev, env);
            r.Some? && r.value.parts == i.parts && r.value.phase == Collecting
            && r.value.(attempts := i.attempts, lastActivityAt := i.lastActivityAt, status := i.status) == i
  {
    hide Backoff;
  }

  lemma AtInAsked(L: Limits, e: Engine, id: Id, ev: InEvent, env: Env)
    requires id in e.inc && AsksResend(L, e.inc[id], ev, env)
    ensures var e' := AtIn(L, e, id, e.inc[id], ev, env);
            && id in e'.inc && e'.inc[id] == InStep(L, e.inc[id], ev, env).value
            && AckFor(id, e'.inc[id], true) in e'.sent
  {
    InStepAsked(L, e.inc[id], ev, env);
    hide InStep, AsksResend, Held;
  }

  lemma AtAllInAsked(L: Limits, e: Engine, ev: InEvent, env: Env, id: Id)
    requires id in e.inc && AsksResend(L, e.inc[id], ev, env)
    ensures var e' := AtAllIn(L, e, ev, env);
            && id in e'.inc && e'.inc[id] == InStep(L, e.inc[id], ev, env).value
            && AckFor(id, e'.inc[id], true) in e'.sent
  {
    InStepAsked(L, e.inc[id], ev, env);
    hide InStep, AsksResend, Held;
    assert AckFor(id, e.inc[id], true) in InMsgs(L, id, e.inc[id], ev, env);
  }

  /** What an asking event does to the record it asks for. */
  function AskStep(act: Act): InEvent {
    match act
    case Receive(_) => PeerAsked
    case Retry(_) => UserRetry
    case OnConnected => LinkUp
    case _ => Tick
  }

  lemma AskApplies(L: Limits, s: Sys, id: Id, ev: Event, ca: Catalog, cb: Catalog)
    requires Collects(s, id) && Asks(L, s, id, ev)
    ensures var t := Apply(L, s, ev);
            && Possible(s, ev, ca, cb) && t.a == s.a && id in t.b.inc && Asked(t, id)
            && AsksResend(L, s.b.inc[id], AskStep(ev.act), ev.env)
            && t.b.inc[id] == InStep(L, s.b.inc[id], AskStep(ev.act), ev.env).value
  {
    hide InStep, AckFor, OutStep, OutMsgs;
    match ev.act
    case Receive(m) => AtInAsked(L, s.b, id, PeerAsked, ev.env);
    case Retry(j) =>
      var e1 := if id in s.b.out then AtOut(L, s.b, id, s.b.out[id], Retried, ev.env) else s.b;
      AtInAsked(L, e1, id, UserRetry, ev.env);
    case OnConnected => AtAllInAsked(L, AtAllOut(L, s.b, Connected, ev.env), LinkUp, ev.env, id);
    case TimerTick => AtAllInAsked(L, AtAllOut(L, s.b, Ticked, ev.env), Tick, ev.env, id);
  }

  /** Asking changes nothing a round depends on. */
  lemma AskKeepsLive(L: Limits, s: Sys, id: Id, ev: Event, ca: Catalog, cb: Catalog, now: int)
    requires Live(L, s, id, ca, now) && Asks(L, s, id, ev)
    ensures Possible(s, ev, ca, cb) && Live(L, Apply(L, s, ev), id, ca, now) && Asked(Apply(L, s, ev), id)
    ensures Apply(L, s, ev).b.inc[id].parts == s.b.inc[id].parts
    ensures Apply(L, s, ev).b.inc[id].received == s.b.inc[id].received
  {
    AskApplies(L, s, id, ev, ca, cb);
    InStepAsked(L, s.b.inc[id], AskStep(ev.act), ev.env);
    hide InStep, AckFor, Apply, Possible, Asks, HandsSent, OutOk, OutMatches, AsksResend, Held;
  }

  // ---- One round as events ------------------------------------------------

  function PumpEvents(id: Id, n: nat, env: Env): seq<Event> { seq(n, k => Event(true, PumpReturns(id, 0, true), env)) }

  function ChunkEvents(id: Id, o: Outgoing, idx: seq<nat>, env: Env): seq<Event> {
    seq(|idx|, k requires 0 <= k < |idx| => Event(false, Receive(ChunkOf(id, o, idx[k])), env))
  }

  function AckEvent(id: Id, i: Incoming, env: Env): Event { Event(true, Receive(AckFor(id, i, true)), env) }

  /** A round: the resend ack arrives, every send of the burst succeeds, and every chunk of it arrives. */
  function RoundEvents(L: Limits, id: Id, o: Outgoing, i: Incoming, env: Env): seq<Event> {
    [AckEvent(id, i, env)] + PumpEvents(id, |RoundBurst(L, o, i, env)|, env)
    + ChunkEvents(id, o, RoundBurst(L, o, i, env), env)
  }

  lemma AckApplies(L: Limits, s: Sys, id: Id, ca: Catalog, cb: Catalog, env: Env)
    requires CatalogOk(ca) && Live(L, s, id, ca, env.now) && Asked(s, id)
    ensures var t := Apply(L, s, AckEvent(id, s.b.inc[id], env));
            && Possible(s, AckEvent(id, s.b.inc[id], env), ca, cb)
            && t.b == s.b && id in t.a.out && HandsSent(t.a)
            && t.a.out[id] == OutStep(L, s.a.out[id], Acked(Held(s.b.inc[id].parts), true), env)
            && OutMatches(L, t.a.out[id], ca[id])
  {
    var o, i := s.a.out[id], s.b.inc[id];
    HonestAckDecodes(id, i, true, ca[id]);
    AtOutHandsSent(L, s.a, id, o, Acked(Held(i.parts), true), env);
    OutEventMatches(L, id, o, Acked(Held(i.parts), true), env, ca[id]);
    hide OutStep, OutMsgs, HandsSent, OutMatches, Held, Decodes, InMatches, UnderWay;
  }

  /** Every send of a burst succeeds at once: the sender is then past the burst, and its chunks are sent. */
  lemma {:induction false} PumpsDrain(L: Limits, s: Sys, id: Id, p: Payload, env: Env, ca: Catalog, cb: Catalog)
    requires id in s.a.out && OutMatches(L, s.a.out[id], p) && HandsSent(s.a)
    ensures var evs := PumpEvents(id, |Burst(L, s.a.out[id], env)|, env);
            && LegalFrom(L, s, evs, ca, cb)
            && var t := RunFrom(L, s, evs);
               && t.b == s.b && id in t.a.out && t.a.out[id] == AfterBurst(L, s.a.out[id], env)
               && HandsSent(t.a) && OutMatches(L, t.a.out[id], p) && s.a.sent <= t.a.sent
               && forall k :: k in Burst(L, s.a.out[id], env) ==> ChunkOf(id, s.a.out[id], k) in t.a.sent
    decreases |s.a.out[id].queue| + |s.a.out[id].hands|
  {
    var o := s.a.out[id];
    hide OutMatches, HandsSent, Resume, ChunkOf, OutMsgs, Apply, Possible, LegalFrom, RunFrom, Step;
    if o.hands == [] {
      assert PumpEvents(id, 0, env) == [];
      FromNothing(L, s, ca, cb);
    } else {
      var ev := Event(true, PumpReturns(id, 0, true), env);
      OneReturn(L, s, id, p, env);
      ResumeShrinks(L, o, env);
      var s1 := Apply(L, s, ev);
      PumpsDrain(L, s1, id, p, env, ca, cb);
      var rest := PumpEvents(id, |Burst(L, s1.a.out[id], env)|, env);
      assert PumpEvents(id, |Burst(L, o, env)|, env) == [ev] + rest;
      ReturnPossible(s, ev, ca, cb);
      FromOne(L, s, ev, ca, cb);
      FromConcat(L, s, [ev], rest, ca, cb);
    }
  }

  lemma FromNothing(L: Limits, s: Sys, ca: Catalog, cb: Catalog)
    ensures LegalFrom(L, s, [], ca, cb) && RunFrom(L, s, []) == s
  {
  }

  lemma ReturnPossible(s: Sys, ev: Event, ca: Catalog, cb: Catalog)
    requires ev.act.PumpReturns?
    ensures Possible(s, ev, ca, cb)
  {
  }

  lemma ResumeShrinks(L: Limits, o: Outgoing, env: Env)
    requires o.hands != []
    ensures var r := Resume(L, o, 0, true, env); |r.queue| + |r.hands| < |o.queue| + |o.hands|
  {
  }

  lemma OneReturn(L: Limits, s: Sys, id: Id, p: Payload, env: Env)
    requires id in s.a.out && OutMatches(L, s.a.out[id], p) && HandsSent(s.a) && s.a.out[id].hands != []
    ensures var t := Apply(L, s, Event(true, PumpReturns(id, 0, true), env));
            && t.b == s.b && id in t.a.out && t.a.out[id] == Resume(L, s.a.out[id], 0, true, env)
            && HandsSent(t.a) && OutMatches(L, t.a.out[id], p) && s.a.sent <= t.a.sent
            && ChunkOf(id, s.a.out[id], s.a.out[id].hands[0]) in s.a.sent
            && forall k :: ChunkOf(id, t.a.out[id], k) == ChunkOf(id, s.a.out[id], k)
  {
    var o := s.a.out[id];
    assert o.hands[0] in o.hands;
    AtOutHandsSent(L, s.a, id, o, SendResolved(0, true), env);
    OutEventMatches(L, id, o, SendResolved(0, true), env, p);
    hide OutMsgs, HandsSent, Resume, OutOk;
  }

  /** Records that differ at most in when the next plain ack is due. */
  predicate Alike(i: Incoming, j: Incoming) { i.(sinceAck := 0) == j.(sinceAck := 0) }

  lemma {:induction false} TakeAllAlike(i: Incoming, j: Incoming, d: Bytes, idx: seq<nat>, now: int)
    requires Alike(i, j)
    ensures Alike(TakeAll(i, d, idx, now), TakeAll(j, d, idx, now))
    decreases |idx|
  {
    if idx != [] {
      if idx[0] < |i.parts| {
        TakeAllAlike(StorePart(i, idx[0], Slice(d, CHUNK_BYTES, idx[0]), now),
                     StorePart(j, idx[0], Slice(d, CHUNK_BYTES, idx[0]), now), d, idx[1..], now);
      } else {
        TakeAllAlike(i, j, d, idx[1..], now);
      }
    }
  }

  lemma OneChunkArrives(L: Limits, e: Engine, id: Id, p: Payload, o: Outgoing, k: nat, env: Env)
    requires p.Ok() && id in e.inc && InMatches(e.inc[id], p) && OutMatches(L, o, p) && k < o.total
    ensures var t := Step(L, e, Receive(ChunkOf(id, o, k)), env);
            && id in t.inc && InMatches(t.inc[id], p)
            && Alike(t.inc[id], StorePart(e.inc[id], k, Slice(p.data, CHUNK_BYTES, k), env.now))
  {
    var c, i := ChunkOf(id, o, k), e.inc[id];
    HonestChunkDecodes(c, p);
    StorePartMatches(i, k, c.data, env.now, p);
    SinceAckMatches(StorePart(i, k, c.data, env.now), p);
    assert SameHeader(i.header, c.header) && i.total == c.total && k < |i.parts|;
    hide InMatches, Held, SameHeader, OutMatches, Decodes, Slice, AckDue;
  }

  /** The chunks of a burst arrive one after the other. */
  lemma {:induction false} ChunksArrive(L: Limits, s: Sys, id: Id, p: Payload, o: Outgoing, idx: seq<nat>, env: Env,
                                        ca: Catalog, cb: Catalog)
    requires p.Ok() && id in s.b.inc && InMatches(s.b.inc[id], p) && OutMatches(L, o, p)
    requires forall k :: 0 <= k < |idx| ==> idx[k] < o.total && ChunkOf(id, o, idx[k]) in s.a.sent
    ensures var evs := ChunkEvents(id, o, idx, env);
            && LegalFrom(L, s, evs, ca, cb)
            && var t := RunFrom(L, s, evs);
               && t.a == s.a && id in t.b.inc && InMatches(t.b.inc[id], p)
               && Alike(t.b.inc[id], TakeAll(s.b.inc[id], p.data, idx, env.now))
    decreases |idx|
  {
    hide InMatches, OutMatches, StorePart, ChunkOf, Slice, Step;
    if idx == [] {
      assert ChunkEvents(id, o, idx, env) == [];
    } else {
      var ev := Event(false, Receive(ChunkOf(id, o, idx[0])), env);
      OneChunkArrives(L, s.b, id, p, o, idx[0], env);
      var s1 := Apply(L, s, ev);
      assert ChunkEvents(id, o, idx, env)[1..] == ChunkEvents(id, o, idx[1..], env);
      InRange(L, s.b.inc[id], o, p);
      ChunksArrive(L, s1, id, p, o, idx[1..], env, ca, cb);
      TakeAllAlike(s1.b.inc[id], StorePart(s.b.inc[id], idx[0], Slice(p.data, CHUNK_BYTES, idx[0]), env.now),
                   p.data, idx[1..], env.now);
      hide Apply, TakeAll;
    }
  }

  lemma InRange(L: Limits, i: Incoming, o: Outgoing, p: Payload)
    requires InMatches(i, p) && OutMatches(L, o, p)
    ensures |i.parts| == o.total
  {
  }

  /** What a round leaves at both ends, as far as it concerns the transfer. */
  ghost predicate RoundDone(L: Limits, s: Sys, t: Sys, id: Id, p: Payload, env: Env)
    requires Collects(s, id)
  {
    var o, i := s.a.out[id], s.b.inc[id];
    && id in t.a.out && t.a.out[id] == SenderRound(L, o, i, env) && OutMatches(L, t.a.out[id], p)
    && id in t.b.inc && Alike(t.b.inc[id], TakeAll(i, p.data, RoundBurst(L, o, i, env), env.now))
    && InMatches(t.b.inc[id], p) && HandsSent(t.a)
  }

  lemma BurstBelow(L: Limits, o: Outgoing, i: Incoming, env: Env)
    requires env.canSend && UnderWay(L, o, i, env.now)
    ensures forall k :: 0 <= k < |RoundBurst(L, o, i, env)| ==> RoundBurst(L, o, i, env)[k] < o.total
  {
    RoundSends(L, o, i, env);
    NewsAre(L, o, i, env.now);
    HandBelow(L, o);
    hide RoundBurst, News, Flew, SenderRound, Ready, Held, HeldSet, OutOk;
    var b := RoundBurst(L, o, i, env);
    forall k | 0 <= k < |b| ensures b[k] < o.total { assert b[k] in b; }
  }

  lemma HandBelow(L: Limits, o: Outgoing)
    requires OutOk(L, o)
    ensures forall h :: h in o.hands ==> h < o.total
  {
  }

  /** A round is a legal run of the two engines, and does at both ends what a round is said to do. */
  lemma RoundRuns(L: Limits, s: Sys, id: Id, ca: Catalog, cb: Catalog, env: Env)
    requires CatalogOk(ca) && env.canSend && Live(L, s, id, ca, env.now) && Asked(s, id)
    ensures var evs := RoundEvents(L, id, s.a.out[id], s.b.inc[id], env);
            LegalFrom(L, s, evs, ca, cb) && RoundDone(L, s, RunFrom(L, s, evs), id, ca[id], env)
  {
    var o, i, p := s.a.out[id], s.b.inc[id], ca[id];
    var burst := RoundBurst(L, o, i, env);
    var ack := AckEvent(id, i, env);
    AckApplies(L, s, id, ca, cb, env);
    FromOne(L, s, ack, ca, cb);
    var s1 := Apply(L, s, ack);
    PumpsDrain(L, s1, id, p, env, ca, cb);
    FromConcat(L, s, [ack], PumpEvents(id, |burst|, env), ca, cb);
    var s2 := RunFrom(L, s1, PumpEvents(id, |burst|, env));
    BurstBelow(L, o, i, env);
    SameChunks(L, o, s1.a.out[id], id, p);
    hide Apply, AckEvent, PumpEvents, ChunkEvents, LegalFrom, RunFrom, Burst, AfterBurst, OutStep, UnderWay, HandsSent,
         InMatches, OutMatches, TakeAll, ChunkOf, Asked, Possible;
    ChunksArrive(L, s2, id, p, o, burst, env, ca, cb);
    FromConcat(L, s, [ack] + PumpEvents(id, |burst|, env), ChunkEvents(id, o, burst, env), ca, cb);
  }

  lemma RoundIsUnaided(L: Limits, id: Id, o: Outgoing, i: Incoming, env: Env)
    ensures Unaided(RoundEvents(L, id, o, i, env))
  {
    hide RoundBurst, AckFor, ChunkOf;
  }

  lemma SameChunks(L: Limits, o: Outgoing, r: Outgoing, id: Id, p: Payload)
    requires OutMatches(L, o, p) && OutMatches(L, r, p)
    ensures forall k :: ChunkOf(id, o, k) == ChunkOf(id, r, k)
  {
    hide OutOk;
  }

  /** A round that brings something refreshes the record. */
  lemma {:induction false} TakeAllRefreshes(i: Incoming, d: Bytes, idx: seq<nat>, now: int)
    requires i.attempts == 0 && i.status == Active && i.lastActivityAt == now
    ensures var r := TakeAll(i, d, idx, now); r.attempts == 0 && r.status == Active && r.lastActivityAt == now
    decreases |idx|
  {
    if idx != [] {
      TakeAllRefreshes(if idx[0] < |i.parts| then StorePart(i, idx[0], Slice(d, CHUNK_BYTES, idx[0]), now) else i,
                       d, idx[1..], now);
    }
  }

  lemma RoundRefreshes(L: Limits, o: Outgoing, i: Incoming, d: Bytes, env: Env)
    requires env.canSend && UnderWay(L, o, i, env.now) && L.window >= 1
    ensures var r := TakeAll(i, d, RoundBurst(L, o, i, env), env.now);
            r.attempts == 0 && r.status == Active && r.lastActivityAt == env.now
  {
    hide News, RoundBurst, Held, OutOk, HeldSet, TakeAll, AllHeld, Distinct, Slice;
    RoundLands(L, o, i, d, env);
    NewsAre(L, o, i, env.now);
    var b := News(L, o, i);
    assert b[0] in b;
    FirstRefreshes(i, d, b, env.now);
  }

  lemma FirstRefreshes(i: Incoming, d: Bytes, b: seq<nat>, now: int)
    requires b != [] && b[0] < |i.parts| && i.parts[b[0]].None? && i.phase == Collecting
    ensures var r := TakeAll(i, d, b, now); r.attempts == 0 && r.status == Active && r.lastActivityAt == now
  {
    TakeAllRefreshes(StorePart(i, b[0], Slice(d, CHUNK_BYTES, b[0]), now), d, b[1..], now);
  }

  /** After a round that leaves parts missing, the stall timer asks for them. */
  lemma NextRoundAsked(L: Limits, t: Sys, id: Id, at: int, later: int)
    requires id in t.b.inc && t.b.inc[id].phase == Collecting
    requires t.b.inc[id].attempts == 0 && t.b.inc[id].status == Active && t.b.inc[id].lastActivityAt == at
    requires later - at >= L.stallMs && L.maxAttempts >= 1
    ensures Asks(L, t, id, Event(false, TimerTick, Env(later, true)))
  {
    assert Pow2(0) == 1;
  }

  /** Times at which rounds may follow each other: a stall limit apart. */
  ghost predicate Spaced(L: Limits, clock: seq<int>) {
    forall k :: 0 <= k < |clock| - 1 ==> clock[k + 1] - clock[k] >= L.stallMs
  }

  /** How many rounds a run takes: the resend acks that reach the sender. */
  function Rounds(evs: seq<Event>, id: Id): nat
    decreases |evs|
  {
    if evs == [] then 0
    else
      var act := evs[0].act;
      (if evs[0].atA && act.Receive? && act.msg.Ack? && act.msg.id == id && act.msg.resend then 1 else 0)
      + Rounds(evs[1..], id)
  }

  lemma {:induction false} RoundsAdd(xs: seq<Event>, ys: seq<Event>, id: Id)
    ensures Rounds(xs + ys, id) == Rounds(xs, id) + Rounds(ys, id)
    decreases |xs|
  {
    if xs == [] {
      assert xs + ys == ys;
    } else {
      assert (xs + ys)[1..] == xs[1..] + ys;
      RoundsAdd(xs[1..], ys, id);
    }
  }

  lemma {:induction false} NoRounds(evs: seq<Event>, id: Id)
    requires forall k :: 0 <= k < |evs| ==> !(evs[k].atA && evs[k].act.Receive?)
    ensures Rounds(evs, id) == 0
    decreases |evs|
  {
    if evs != [] { NoRounds(evs[1..], id); }
  }

  lemma OneRound(L: Limits, id: Id, o: Outgoing, i: Incoming, env: Env)
    ensures Rounds(RoundEvents(L, id, o, i, env), id) == 1
  {
    var b := RoundBurst(L, o, i, env);
    RoundsAdd([AckEvent(id, i, env)] + PumpEvents(id, |b|, env), ChunkEvents(id, o, b, env), id);
    RoundsAdd([AckEvent(id, i, env)], PumpEvents(id, |b|, env), id);
    NoRounds(PumpEvents(id, |b|, env), id);
    NoRounds(ChunkEvents(id, o, b, env), id);
    assert [AckEvent(id, i, env)][1..] == [];
    hide RoundBurst;
  }

  /** After a round: complete, or under way again at any later time. */
  lemma AfterRound(L: Limits, s: Sys, t: Sys, id: Id, ca: Catalog, env: Env, later: int)
    requires Live(L, s, id, ca, env.now) && env.canSend && L.window >= 1 && RoundDone(L, s, t, id, ca[id], env)
    ensures var i, r := s.b.inc[id], t.b.inc[id];
            && r.total == i.total && r.received == i.received + Min(L.window, i.total - i.received)
            && r.attempts == 0 && r.status == Active && r.lastActivityAt == env.now
            && (if r.received == r.total then r.phase == Hashing else Live(L, t, id, ca, later))
  {
    var o, i := s.a.out[id], s.b.inc[id];
    RoundDelivers(L, o, i, ca[id].data, env, later);
    RoundRefreshes(L, o, i, ca[id].data, env);
    var r := TakeAll(i, ca[id].data, RoundBurst(L, o, i, env), env.now);
    hide RoundBurst, SenderRound, TakeAll, AllHeld, HandsSent, OutMatches, InMatches;
    if r.received < r.total { AlikeUnderWay(L, SenderRound(L, o, i, env), r, t.b.inc[id], later); }
  }

  lemma AlikeUnderWay(L: Limits, o: Outgoing, i: Incoming, j: Incoming, now: int)
    requires UnderWay(L, o, i, now) && Alike(i, j)
    ensures UnderWay(L, o, j, now)
  {
  }

  /** Rounds a stall limit apart, each asked for by the receiver's timer, bring all the parts. */
  lemma {:induction false} RoundsRun(L: Limits, s: Sys, id: Id, ca: Catalog, cb: Catalog, clock: seq<int>)
      returns (evs: seq<Event>)
    requires CatalogOk(ca) && L.window >= 1 && L.maxAttempts >= 1 && clock != [] && Spaced(L, clock)
    requires Live(L, s, id, ca, clock[0]) && Asked(s, id)
    requires var lack := s.b.inc[id].total - s.b.inc[id].received;
             Capacity(L.window, |clock| - 1) < lack <= Capacity(L.window, |clock|)
    ensures LegalFrom(L, s, evs, ca, cb) && Rounds(evs, id) == |clock| && Unaided(evs)
    ensures var t := RunFrom(L, s, evs); id in t.a.out && id in t.b.inc && t.b.inc[id].phase == Hashing
    decreases |clock|
  {
    hide Live, Asked, RoundDone, LegalFrom, RunFrom, Apply, RoundEvents, Possible, OfItself;
    var env := Env(clock[0], true);
    CollectingNow(L, s, id, ca, clock[0]);
    evs := RoundEvents(L, id, s.a.out[id], s.b.inc[id], env);
    RoundIsUnaided(L, id, s.a.out[id], s.b.inc[id], env);
    RoundRuns(L, s, id, ca, cb, env);
    OneRound(L, id, s.a.out[id], s.b.inc[id], env);
    var t := RunFrom(L, s, evs);
    var later := if |clock| > 1 then clock[1] else 0;
    AfterRound(L, s, t, id, ca, env, later);
    BothThere(L, s, t, id, ca[id], env);
    if t.b.inc[id].received < t.b.inc[id].total {
      var tick := Event(false, TimerTick, Env(later, true));
      TickIsUnaided(tick);
      CollectingNow(L, t, id, ca, later);
      NextRoundAsked(L, t, id, clock[0], later);
      AskKeepsLive(L, t, id, tick, ca, cb, later);
      FromOne(L, t, tick, ca, cb);
      var u := Apply(L, t, tick);
      assert forall k :: 0 <= k < |clock| - 2 ==> clock[1..][k + 1] - clock[1..][k] == clock[k + 2] - clock[k + 1];
      SameTotals(L, t, u, id, ca, later);
      var rest := RoundsRun(L, u, id, ca, cb, clock[1..]);
      FromConcat(L, t, [tick], rest, ca, cb);
      RoundsAdd([tick], rest, id);
      NoRounds([tick], id);
      FromConcat(L, s, evs, [tick] + rest, ca, cb);
      RoundsAdd(evs, [tick] + rest, id);
      UnaidedJoins([tick], rest);
      UnaidedJoins(evs, [tick] + rest);
      evs := evs + ([tick] + rest);
    }
  }

  lemma TickIsUnaided(tick: Event)
    requires tick.act.TimerTick?
    ensures Unaided([tick])
  {
  }

  lemma BothThere(L: Limits, s: Sys, t: Sys, id: Id, p: Payload, env: Env)
    requires Collects(s, id) && RoundDone(L, s, t, id, p, env)
    ensures id in t.a.out && id in t.b.inc
  {
  }

  lemma CollectingNow(L: Limits, t: Sys, id: Id, ca: Catalog, now: int)
    requires Live(L, t, id, ca, now)
    ensures Collects(t, id) && id in ca
  {
  }

  lemma SameTotals(L: Limits, t: Sys, u: Sys, id: Id, ca: Catalog, now: int)
    requires Live(L, t, id, ca, now) && Live(L, u, id, ca, now)
    ensures t.b.inc[id].total == u.b.inc[id].total
  {
    hide UnderWay, HandsSent, OutOk, Held;
  }

  // ---- The end of a transfer ----------------------------------------------

  /** The receiver's digest, its save and the done ack. */
  function FinalEvents(id: Id, i: Incoming, env: Env): seq<Event> {
    [Event(false, HashDone(id), env), Event(false, SaveVisible(i.serial), env), Event(false, SaveDone(i.serial, true), env),
     Event(true, Receive(Ack(id, Upto(i.total), false, true)), env)]
  }

  lemma ReceiverFinishes(L: Limits, y: Engine, id: Id, ca: Catalog, env: Env)
    requires CatalogOk(ca) && ReceiverInv(y, ca) && id in y.inc && y.inc[id].phase == Hashing
    ensures var y1 := Step(L, y, HashDone(id), env);
            var y2 := Step(L, y1, SaveVisible(y.inc[id].serial), env);
            var y3 := Step(L, y2, SaveDone(y.inc[id].serial, true), env);
            && id in ca && id in y3.stored && y3.stored[id] == ca[id].data
            && Ack(id, Upto(y.inc[id].total), false, true) in y3.sent
  {
    assert id in ca;
    hide HashResolved, ReceiverInv, Upto, CatalogOk, EmptyParts;
    HonestHashPasses(y, id, env, ca);
    var y1 := Step(L, y, HashDone(id), env);
    assert y1 == HashResolved(y, id, env);
    SaveFinishes(L, y1, y.inc[id].serial, env);
  }

  lemma SaveFinishes(L: Limits, y: Engine, n: nat, env: Env)
    requires n in y.saving
    ensures var v := y.saving[n];
            var y2 := Step(L, y, SaveVisible(n), env);
            var y3 := Step(L, y2, SaveDone(n, true), env);
            v.id in y3.stored && y3.stored[v.id] == v.data && Ack(v.id, Upto(v.total), false, true) in y3.sent
  {
    hide Upto, EmptyParts;
  }

  lemma DoneConfirms(L: Limits, x: Engine, id: Id, total: nat, env: Env)
    requires id in x.out && total <= MAX_TRANSFER_CHUNKS
    ensures id in Step(L, x, Receive(Ack(id, Upto(total), false, true)), env).confirmed
  {
    hide OutStep, OutMsgs;
  }

  lemma TotalIsSmall(y: Engine, id: Id, ca: Catalog)
    requires CatalogOk(ca) && ReceiverInv(y, ca) && id in y.inc
    ensures y.inc[id].total <= MAX_TRANSFER_CHUNKS
  {
    assert ca[id].Ok();
    hide Held, Slice;
  }

  lemma TransferEnds(L: Limits, s: Sys, id: Id, ca: Catalog, cb: Catalog, env: Env)
    requires CatalogOk(ca) && OneWay(L, s.a, s.b, ca)
    requires id in s.a.out && id in s.b.inc && s.b.inc[id].phase == Hashing
    ensures var evs := FinalEvents(id, s.b.inc[id], env);
            && LegalFrom(L, s, evs, ca, cb) && Rounds(evs, id) == 0 && Unaided(evs)
            && var t := RunFrom(L, s, evs);
               id in ca && id in t.a.confirmed && id in t.b.stored && t.b.stored[id] == ca[id].data
  {
    hide Step, Upto, ReceiverInv, CatalogOk;
    var i := s.b.inc[id];
    ReceiverFinishes(L, s.b, id, ca, env);
    TotalIsSmall(s.b, id, ca);
    DoneConfirms(L, s.a, id, i.total, env);
    var evs := FinalEvents(id, i, env);
    FromFour(L, s, evs[0], evs[1], evs[2], evs[3], ca, cb);
    assert evs == [evs[0], evs[1], evs[2], evs[3]];
    assert evs == evs[..3] + [evs[3]] && [evs[3]][1..] == [];
    NoRounds(evs[..3], id);
    RoundsAdd(evs[..3], [evs[3]], id);
  }

  lemma FromFour(L: Limits, s: Sys, a: Event, b: Event, c: Event, d: Event, ca: Catalog, cb: Catalog)
    requires Possible(s, a, ca, cb) && Possible(Apply(L, s, a), b, ca, cb)
    requires Possible(Apply(L, Apply(L, s, a), b), c, ca, cb)
    requires Possible(Apply(L, Apply(L, Apply(L, s, a), b), c), d, ca, cb)
    ensures LegalFrom(L, s, [a, b, c, d], ca, cb)
    ensures RunFrom(L, s, [a, b, c, d]) == Apply(L, Apply(L, Apply(L, Apply(L, s, a), b), c), d)
  {
    hide Apply, Possible, LegalFrom, RunFrom;
    var s1 := Apply(L, s, a);
    var s2 := Apply(L, s1, b);
    FromOne(L, s, a, ca, cb);
    FromOne(L, s1, b, ca, cb);
    FromConcat(L, s, [a], [b], ca, cb);
    FromOne(L, s2, c, ca, cb);
    FromConcat(L, s, [a] + [b], [c], ca, cb);
    FromOne(L, Apply(L, s2, c), d, ca, cb);
    FromConcat(L, s, [a] + [b] + [c], [d], ca, cb);
    assert [a] + [b] + [c] + [d] == [a, b, c, d];
  }

  /** Completion: in any state reachable without discarding parts, once what is in flight is old, the
      receiver's next request starts a run that needs no more rounds than windows hold what is missing,
      loses none of its messages, and ends with the payload stored at the receiver and confirmed. */
  lemma TransferCompletes(L: Limits, evs: seq<Event>, ca: Catalog, cb: Catalog, id: Id, ask: Event, clock: seq<int>)
      returns (more: seq<Event>)
    requires CatalogOk(ca) && CatalogOk(cb) && Legal(L, evs, ca, cb) && NothingDiscarded(L, evs)
    requires Collects(Run(L, evs), id) && Asks(L, Run(L, evs), id, ask)
    requires L.window >= 1 && L.maxAttempts >= 1 && clock != [] && Spaced(L, clock)
    requires Aged(L, Run(L, evs).a.out[id], Run(L, evs).b.inc[id], clock[0])
    requires var i := Run(L, evs).b.inc[id];
             L.window * (|clock| - 1) < i.total - i.received <= L.window * |clock|
    ensures Legal(L, evs + [ask] + more, ca, cb) && Rounds(more, id) == |clock| && Unaided(more)
    ensures var t := Run(L, evs + [ask] + more);
            id in ca && id in t.a.confirmed && id in t.b.stored && t.b.stored[id] == ca[id].data
  {
    hide Live, Asked, Asks, Aged, LegalFrom, RunFrom, Apply, Run, Legal, NothingDiscarded, OneWay, Possible, Capacity,
         CatalogOk, Spaced, FinalEvents;
    WindowsHold(L.window, |clock|, Run(L, evs).b.inc[id].total - Run(L, evs).b.inc[id].received);
    ReachableIsUnderWay(L, evs, ca, cb, id, clock[0]);
    RunsAreSound(L, evs, ca, cb);
    more := AskedCompletes(L, Run(L, evs), ca, cb, id, ask, clock);
    RunOn(L, evs, [ask] + more, ca, cb);
    assert evs + ([ask] + more) == evs + [ask] + more;
  }

  lemma WindowsHold(w: nat, n: nat, lack: int)
    requires n >= 1 && w * (n - 1) < lack <= w * n
    ensures Capacity(w, n - 1) < lack <= Capacity(w, n)
  {
    CapacityIsProduct(w, n);
    CapacityIsProduct(w, n - 1);
  }

  /** The same from a state that is under way. */
  lemma AskedCompletes(L: Limits, s: Sys, ca: Catalog, cb: Catalog, id: Id, ask: Event, clock: seq<int>)
      returns (more: seq<Event>)
    requires CatalogOk(ca) && OneWay(L, s.a, s.b, ca) && Collects(s, id) && Asks(L, s, id, ask)
    requires L.window >= 1 && L.maxAttempts >= 1 && clock != [] && Spaced(L, clock)
    requires Live(L, s, id, ca, clock[0])
    requires var lack := s.b.inc[id].total - s.b.inc[id].received;
             Capacity(L.window, |clock| - 1) < lack <= Capacity(L.window, |clock|)
    ensures LegalFrom(L, s, [ask] + more, ca, cb) && Rounds(more, id) == |clock| && Unaided(more)
    ensures var t := RunFrom(L, s, [ask] + more);
            id in ca && id in t.a.confirmed && id in t.b.stored && t.b.stored[id] == ca[id].data
  {
    hide Live, Asked, Asks, Aged, LegalFrom, RunFrom, Apply, OneWay, Possible, Capacity, CatalogOk, Spaced, FinalEvents,
         Unaided;
    var rounds := AskedRounds(L, s, ca, cb, id, ask, clock);
    FromIsSound(L, s, [ask] + rounds, ca, cb);
    var t := RunFrom(L, s, [ask] + rounds);
    var env := Env(clock[|clock| - 1], true);
    var last := FinalEvents(id, t.b.inc[id], env);
    TransferEnds(L, t, id, ca, cb, env);
    FromConcat(L, s, [ask] + rounds, last, ca, cb);
    RoundsAdd(rounds, last, id);
    UnaidedJoins(rounds, last);
    more := rounds + last;
    assert [ask] + rounds + last == [ask] + more;
  }

  lemma AskedRounds(L: Limits, s: Sys, ca: Catalog, cb: Catalog, id: Id, ask: Event, clock: seq<int>)
      returns (rounds: seq<Event>)
    requires CatalogOk(ca) && Collects(s, id) && Asks(L, s, id, ask)
    requires L.window >= 1 && L.maxAttempts >= 1 && clock != [] && Spaced(L, clock)
    requires Live(L, s, id, ca, clock[0])
    requires var lack := s.b.inc[id].total - s.b.inc[id].received;
             Capacity(L.window, |clock| - 1) < lack <= Capacity(L.window, |clock|)
    ensures LegalFrom(L, s, [ask] + rounds, ca, cb) && Rounds(rounds, id) == |clock| && Unaided(rounds)
    ensures var t := RunFrom(L, s, [ask] + rounds); id in t.a.out && id in t.b.inc && t.b.inc[id].phase == Hashing
  {
    hide Live, Asked, Asks, Aged, LegalFrom, RunFrom, Apply, Possible, Capacity, CatalogOk, Spaced, Unaided;
    AskKeepsLive(L, s, id, ask, ca, cb, clock[0]);
    FromOne(L, s, ask, ca, cb);
    var s1 := Apply(L, s, ask);
    CollectingNow(L, s1, id, ca, clock[0]);
    SameTotals(L, s, s1, id, ca, clock[0]);
    rounds := RoundsRun(L, s1, id, ca, cb, clock);
    FromConcat(L, s, [ask], rounds, ca, cb);
  }

  /** Times for n rounds from `now` on. */
  function Times(L: Limits, now: int, n: nat): (clock: seq<int>)
    ensures |clock| == n && Spaced(L, clock)
    ensures n > 0 ==> clock[0] == now
    decreases n
  {
    if n == 0 then [] else [now] + Times(L, now + L.stallMs, n - 1)
  }

  lemma {:induction false} RoundsNeeded(window: nat, lack: nat) returns (n: nat)
    requires window >= 1 && lack >= 1
    ensures n >= 1 && Capacity(window, n - 1) < lack <= Capacity(window, n)
    decreases lack
  {
    CapacityIsProduct(window, 1);
    CapacityIsProduct(window, 0);
    if lack <= window {
      n := 1;
    } else {
      var r := RoundsNeeded(window, lack - window);
      CapacityIsProduct(window, r);
      CapacityIsProduct(window, r - 1);
      n := r + 1;
      CapacityIsProduct(window, n);
    }
  }

  /** A time by which everything in flight is old. */
  lemma {:induction false} OldBy(L: Limits, flying: map<nat, int>) returns (now: int)
    ensures forall j :: j in flying ==> now - flying[j] >= L.stallMs
    decreases |flying|
  {
    if flying == map[] { return 0; }
    var j :| j in flying;
    var rest := flying - {j};
    assert rest.Keys == flying.Keys - {j};
    now := OldBy(L, rest);
    if now - flying[j] < L.stallMs { now := flying[j] + L.stallMs; }
    assert forall i :: i in flying ==> i == j || i in rest;
  }

  lemma LiveLacks(L: Limits, s: Sys, id: Id, ca: Catalog, now: int)
    requires Live(L, s, id, ca, now)
    ensures s.b.inc[id].received < s.b.inc[id].total
  {
    hide OutOk, Held, HandsSent;
  }

  /** Whatever is missing, there are rounds enough for it: any request of the receiver leads to completion. */
  lemma LiveCompletes(L: Limits, s: Sys, ca: Catalog, cb: Catalog, id: Id, ask: Event, now: int) returns (more: seq<Event>)
    requires CatalogOk(ca) && OneWay(L, s.a, s.b, ca) && Collects(s, id) && Asks(L, s, id, ask)
    requires L.window >= 1 && L.maxAttempts >= 1 && Live(L, s, id, ca, now)
    ensures LegalFrom(L, s, [ask] + more, ca, cb) && Unaided(more)
    ensures var t := RunFrom(L, s, [ask] + more);
            id in ca && id in t.a.confirmed && id in t.b.stored && t.b.stored[id] == ca[id].data
  {
    hide Live, Asks, LegalFrom, RunFrom, OneWay, CatalogOk, Spaced, Capacity, Unaided;
    LiveLacks(L, s, id, ca, now);
    var n := RoundsNeeded(L.window, s.b.inc[id].total - s.b.inc[id].received);
    more := AskedCompletes(L, s, ca, cb, id, ask, Times(L, now, n));
  }
}
