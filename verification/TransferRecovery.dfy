/** One query is enough: from any state reached without discarding, a query of the sender that
    arrives over a link that then loses nothing leads, with nobody's help, to the payload stored at
    the receiver and confirmed at the sender. */
module TransferRecovery {
  import opened Wrappers
  import opened Chunking
  import opened TransferRecords
  import opened TransferHeld
  import opened TransferSender
  import opened TransferProtocol
  import opened TransferSafety
  import opened TransferRuns
  import opened TransferOnce
  import opened TransferProgress
  import opened TransferCompletion
  import opened TransferStarts

  /** The payload is stored at b and a has been told. */
  ghost predicate Delivered(t: Sys, id: Id, ca: Catalog) {
    id in ca && id in t.a.confirmed && id in t.b.stored && t.b.stored[id] == ca[id].data
  }

  /** The room has a place for the transfer, if it does not know it yet. */
  ghost predicate HasRoom(L: Limits, y: Engine, id: Id, p: Payload) {
    id in y.inc || id in y.stored
    || (|y.inc| < L.maxIncomingPerRoom && PendingBytes(y.inc) + |p.data| <= L.maxIncomingBytesPerRoom)
  }

  // ---- The receiver has stored it -----------------------------------------

  lemma StoredAnswers(L: Limits, s: Sys, ca: Catalog, cb: Catalog, id: Id, env: Env) returns (more: seq<Event>)
    requires CatalogOk(ca) && OneWay(L, s.a, s.b, ca) && id in s.a.out && id in s.b.stored && id !in s.b.inc
    requires Query(id) in s.a.sent
    ensures LegalFrom(L, s, more, ca, cb) && Unaided(more) && Delivered(RunFrom(L, s, more), id, ca)
  {
    var q := Event(false, Receive(Query(id)), env);
    var done := Event(true, Receive(Ack(id, [], false, true)), env);
    var s1 := Apply(L, s, q);
    assert s1 == s.(b := s.b.(sent := s.b.sent + {Ack(id, [], false, true)}));
    FromOne(L, s, q, ca, cb);
    FromOne(L, s1, done, ca, cb);
    FromConcat(L, s, [q], [done], ca, cb);
    more := [q] + [done];
    var t := Apply(L, s1, done);
    assert t.b == s1.b && id in t.a.confirmed;
    assert Delivered(t, id, ca);
    hide LegalFrom, RunFrom;
  }

  // ---- The receiver is saving it ------------------------------------------

  lemma SavingFinishes(L: Limits, s: Sys, ca: Catalog, cb: Catalog, id: Id, env: Env) returns (more: seq<Event>)
    requires CatalogOk(ca) && OneWay(L, s.a, s.b, ca) && id in s.a.out && SavingAt(s.b, id)
    requires var n := s.b.inc[id].serial;
             n in s.b.saving && s.b.saving[n].id == id && s.b.saving[n].total <= MAX_TRANSFER_CHUNKS
    ensures LegalFrom(L, s, more, ca, cb) && Unaided(more) && Delivered(RunFrom(L, s, more), id, ca)
  {
    var n := s.b.inc[id].serial;
    var total := s.b.saving[n].total;
    var shows, ends := Event(false, SaveVisible(n), env), Event(false, SaveDone(n, true), env);
    var done := Event(true, Receive(Ack(id, Upto(total), false, true)), env);
    SaveFinishes(L, s.b, n, env);
    DoneConfirms(L, s.a, id, total, env);
    SavedIsGenuine(L, s, ca, id, n);
    hide Step, Upto, OneWay, CatalogOk, LegalFrom, RunFrom, SavingAt;
    more := [shows, ends, done];
    FromThree(L, s, shows, ends, done, ca, cb);
  }

  lemma FromThree(L: Limits, s: Sys, a: Event, b: Event, c: Event, ca: Catalog, cb: Catalog)
    requires Possible(s, a, ca, cb) && Possible(Apply(L, s, a), b, ca, cb)
    requires Possible(Apply(L, Apply(L, s, a), b), c, ca, cb)
    ensures LegalFrom(L, s, [a, b, c], ca, cb)
    ensures RunFrom(L, s, [a, b, c]) == Apply(L, Apply(L, Apply(L, s, a), b), c)
  {
    hide Apply, Possible, LegalFrom, RunFrom;
    var s1 := Apply(L, s, a);
    FromOne(L, s, a, ca, cb);
    FromOne(L, s1, b, ca, cb);
    FromConcat(L, s, [a], [b], ca, cb);
    FromOne(L, Apply(L, s1, b), c, ca, cb);
    FromConcat(L, s, [a] + [b], [c], ca, cb);
    assert [a] + [b] + [c] == [a, b, c];
  }

  lemma SavedIsGenuine(L: Limits, s: Sys, ca: Catalog, id: Id, n: nat)
    requires OneWay(L, s.a, s.b, ca) && n in s.b.saving && s.b.saving[n].id == id
    ensures id in ca && s.b.saving[n].data == ca[id].data
  {
  }

  // ---- The receiver knows nothing of it -----------------------------------

  /** It asks for all of it, and the sender begins anew. */
  lemma AskedForAll(L: Limits, s: Sys, ca: Catalog, cb: Catalog, id: Id, env: Env) returns (h: nat, t: Sys)
    requires OneWay(L, s.a, s.b, ca) && HandsSent(s.a) && env.canSend && L.window >= 1
    requires id in s.a.out && s.a.out[id].acked == {} && id !in s.b.inc && id !in s.b.stored && Query(id) in s.a.sent
    requires forall j :: j in s.a.out[id].inFlight ==> env.now - s.a.out[id].inFlight[j] >= L.stallMs
    ensures var evs := [Event(false, Receive(Query(id)), env)] + [Event(true, Receive(Ack(id, [], true, false)), env)];
            && LegalFrom(L, s, evs, ca, cb) && Unaided(evs) && t == RunFrom(L, s, evs)
    ensures id in t.a.out && t.a.out[id].acked == {} && t.a.out[id].inFlight == map[]
    ensures ChunkOf(id, t.a.out[id], h) in t.a.sent && h < t.a.out[id].total
    ensures t.b == s.b.(sent := t.b.sent)
  {
    var q, all := Event(false, Receive(Query(id)), env), Event(true, Receive(Ack(id, [], true, false)), env);
    var s1 := Apply(L, s, q);
    assert s1 == s.(b := s.b.(sent := s.b.sent + {Ack(id, [], true, false)}));
    t := Apply(L, s1, all);
    FromOne(L, s, q, ca, cb);
    FromOne(L, s1, all, ca, cb);
    FromConcat(L, s, [q], [all], ca, cb);
    hide LegalFrom, RunFrom;
    h := StartsAgain(L, s.a, id, env, ca);
  }

  lemma StartsAgain(L: Limits, x: Engine, id: Id, env: Env, ca: Catalog) returns (h: nat)
    requires SenderInv(L, x, ca) && HandsSent(x) && env.canSend && L.window >= 1
    requires id in x.out && x.out[id].acked == {}
    requires forall j :: j in x.out[id].inFlight ==> env.now - x.out[id].inFlight[j] >= L.stallMs
    ensures var r := Step(L, x, Receive(Ack(id, [], true, false)), env);
            && id in r.out && r.out[id].acked == {} && r.out[id].inFlight == map[]
            && ChunkOf(id, r.out[id], h) in r.sent && h < r.out[id].total
  {
    var o := x.out[id];
    var ev := Acked([], true);
    var r := OutStep(L, o, ev, env);
    AskedRecord(L, o, env);
    HandsSentAck(L, x, Ack(id, [], true, false), env, ca);
    assert r.hands != [];
    h := r.hands[0];
    var e := Step(L, x, Receive(Ack(id, [], true, false)), env);
    assert e.out[id] == r;
    hide OutStep, OutMsgs, ChunkOf, Step;
    assert h in r.hands;
  }

  /** A record with nothing acknowledged that is asked for everything has a chunk in hand. */
  lemma AskedRecord(L: Limits, o: Outgoing, env: Env)
    requires OutOk(L, o) && o.total >= 1 && env.canSend && L.window >= 1 && o.acked == {}
    requires forall j :: j in o.inFlight ==> env.now - o.inFlight[j] >= L.stallMs
    ensures var r := OutStep(L, o, Acked([], true), env);
            && r.acked == {} && r.inFlight == map[] && |r.hands| == 1 && r.hands[0] < r.total && r.total == o.total
  {
    var o1 := AbsorbAck(L, o, [], true, env.now);
    assert Known([], o.total) == {};
    assert o1.inFlight == map[] && o1.acked == {} && o1.hands == o.hands && o1.pumping == o.pumping && o1.status == Active;
    UnheldIsExact(o.total, {}, {});
    assert o1.inFlight.Keys == {} && o1.queue == Unheld(o.total, {}, {});
    assert 0 in o1.queue && o1.queue[0] < o.total;
    hide Unheld, Known, Recent;
    if o.pumping { assert Pump(L, o1, true) == o1; }
  }

  /** The first chunk to arrive opens a record. */
  lemma FirstArrives(L: Limits, s: Sys, ca: Catalog, cb: Catalog, id: Id, h: nat, env: Env) returns (u: Sys, got: Event)
    requires CatalogOk(ca) && OneWay(L, s.a, s.b, ca) && id in s.a.out && h < s.a.out[id].total
    requires id !in s.b.inc && id !in s.b.stored && id !in s.b.out && id in ca && HasRoom(L, s.b, id, ca[id])
    requires ChunkOf(id, s.a.out[id], h) in s.a.sent
    ensures LegalFrom(L, s, [got], ca, cb) && Unaided([got]) && u == RunFrom(L, s, [got])
    ensures u.a == s.a && id in u.b.inc && OneWay(L, u.a, u.b, ca)
    ensures var i := u.b.inc[id];
            && i.status == Active && i.attempts == 0 && i.lastActivityAt == env.now
            && i.phase == (if s.a.out[id].total == 1 then Hashing else Collecting)
  {
    var c := ChunkOf(id, s.a.out[id], h);
    got := Event(false, Receive(c), env);
    u := Apply(L, s, got);
    FromOne(L, s, got, ca, cb);
    FromIsSound(L, s, [got], ca, cb);
    ChunkIsHonest(L, s, ca, id, h);
    AdmittedIff(L, s.b, c, env);
    hide LegalFrom, RunFrom, OneWay, Step, CatalogOk, Decodes, PendingBytes;
  }

  lemma ChunkIsHonest(L: Limits, s: Sys, ca: Catalog, id: Id, h: nat)
    requires CatalogOk(ca) && OneWay(L, s.a, s.b, ca) && id in s.a.out && ChunkOf(id, s.a.out[id], h) in s.a.sent
    ensures id in ca && Decodes(ChunkOf(id, s.a.out[id], h)) && s.a.out[id].header.size == |ca[id].data|
  {
    assert ca[id].Ok() && OutMatches(L, s.a.out[id], ca[id]);
    HonestChunkDecodes(ChunkOf(id, s.a.out[id], h), ca[id]);
  }

  lemma OpenedIsLive(L: Limits, u: Sys, ca: Catalog, id: Id, now: int)
    requires OneWay(L, u.a, u.b, ca) && HandsSent(u.a) && Collects(u, id)
    requires u.a.out[id].acked == {} && u.a.out[id].inFlight == map[]
    ensures Live(L, u, id, ca, now)
  {
    assert id in ca && OutMatches(L, u.a.out[id], ca[id]) && InMatches(u.b.inc[id], ca[id]);
    hide OneWay, HandsSent, Held, OutOk;
  }

  /** From there the receiver's timer does the rest. */
  lemma OpenedCompletes(L: Limits, u: Sys, ca: Catalog, cb: Catalog, id: Id, env: Env) returns (more: seq<Event>)
    requires CatalogOk(ca) && OneWay(L, u.a, u.b, ca) && HandsSent(u.a) && id in u.a.out && id in u.b.inc
    requires u.a.out[id].acked == {} && u.a.out[id].inFlight == map[] && L.window >= 1 && L.maxAttempts >= 1
    requires var i := u.b.inc[id];
             i.status == Active && i.attempts == 0 && i.lastActivityAt == env.now && i.phase != Saving
    ensures LegalFrom(L, u, more, ca, cb) && Unaided(more) && Delivered(RunFrom(L, u, more), id, ca)
  {
    if u.b.inc[id].phase == Hashing {
      hide OneWay, CatalogOk, HandsSent, FinalEvents, LegalFrom, RunFrom;
      more := FinalEvents(id, u.b.inc[id], env);
      TransferEnds(L, u, id, ca, cb, env);
    } else {
      var later := Env(env.now + L.stallMs, true);
      var ask := Event(false, TimerTick, later);
      OpenedIsLive(L, u, ca, id, later.now);
      FirstPatience(L);
      assert Asks(L, u, id, ask);
      TickIsUnaided(ask);
      hide OneWay, CatalogOk, HandsSent, Live, Asks, LegalFrom, RunFrom, Unaided;
      var rest := LiveCompletes(L, u, ca, cb, id, ask, later.now);
      UnaidedJoins([ask], rest);
      more := [ask] + rest;
    }
  }

  lemma FirstPatience(L: Limits)
    ensures Backoff(L, 0) == L.stallMs
  {
    assert Pow2(0) == 1;
  }

  lemma FromScratch(L: Limits, s: Sys, ca: Catalog, cb: Catalog, id: Id, env: Env) returns (more: seq<Event>)
    requires CatalogOk(ca) && OneWay(L, s.a, s.b, ca) && HandsSent(s.a) && env.canSend
    requires L.window >= 1 && L.maxAttempts >= 1 && id in s.a.out && s.a.out[id].acked == {} && Query(id) in s.a.sent
    requires id !in s.b.inc && id !in s.b.stored && id !in s.b.out && id in ca && HasRoom(L, s.b, id, ca[id])
    requires forall j :: j in s.a.out[id].inFlight ==> env.now - s.a.out[id].inFlight[j] >= L.stallMs
    ensures LegalFrom(L, s, more, ca, cb) && Unaided(more) && Delivered(RunFrom(L, s, more), id, ca)
  {
    hide LegalFrom, RunFrom, OneWay, CatalogOk, Unaided, HandsSent, PendingBytes;
    var h, t := AskedForAll(L, s, ca, cb, id, env);
    var asked := [Event(false, Receive(Query(id)), env)] + [Event(true, Receive(Ack(id, [], true, false)), env)];
    FromIsSound(L, s, asked, ca, cb);
    StillSent(L, s, asked, ca, cb);
    var u, got := FirstArrives(L, t, ca, cb, id, h, env);
    var rest := OpenedCompletes(L, u, ca, cb, id, env);
    FromConcat(L, t, [got], rest, ca, cb);
    FromConcat(L, s, asked, [got] + rest, ca, cb);
    UnaidedJoins([got], rest);
    UnaidedJoins(asked, [got] + rest);
    more := asked + ([got] + rest);
  }

  /** Two events keep the chunks in hand on the wire. */
  lemma {:induction false} StillSent(L: Limits, s: Sys, evs: seq<Event>, ca: Catalog, cb: Catalog)
    requires CatalogOk(ca) && OneWay(L, s.a, s.b, ca) && HandsSent(s.a) && LegalFrom(L, s, evs, ca, cb)
    ensures HandsSent(RunFrom(L, s, evs).a)
    decreases |evs|
  {
    if evs != [] {
      var ev := evs[0];
      assert SenderInv(L, s.a, ca);
      hide HandsSent, CatalogOk, SenderInv, Step;
      if ev.atA { HandsSentStep(L, s.a, ev.act, ev.env, ca); }
      FromOne(L, s, ev, ca, cb);
      FromIsSound(L, s, [ev], ca, cb);
      hide OneWay, Possible;
      StillSent(L, Apply(L, s, ev), evs[1..], ca, cb);
    }
  }

  // ---- Any query ----------------------------------------------------------

  /** One query is enough. */
  lemma QueryCompletes(L: Limits, evs: seq<Event>, ca: Catalog, cb: Catalog, id: Id) returns (more: seq<Event>)
    requires CatalogOk(ca) && CatalogOk(cb) && Legal(L, evs, ca, cb) && NothingDiscarded(L, evs)
    requires L.window >= 1 && L.maxAttempts >= 1 && id !in cb
    requires var s := Run(L, evs); id in s.a.out && Query(id) in s.a.sent && id in ca && HasRoom(L, s.b, id, ca[id])
    ensures Legal(L, evs + more, ca, cb) && Unaided(more) && Delivered(Run(L, evs + more), id, ca)
  {
    var s := Run(L, evs);
    RunsAreSound(L, evs, ca, cb);
    hide Run, Legal, CatalogOk, OneWay, LegalFrom, RunFrom, Unaided, NothingDiscarded, HasRoom;
    if id in s.b.inc && s.b.inc[id].phase == Collecting {
      more := CollectingCompletes(L, evs, ca, cb, id);
    } else {
      ReachableIsOnce(L, evs, ca, cb);
      RunHandsSent(L, evs, ca, cb);
      NotItsOwn(L, s, cb, id);
      if id !in s.b.inc && id !in s.b.stored { NothingAcked(L, evs, ca, cb, id); }
      hide OnceInv, HandsSent;
      more := OthersComplete(L, s, ca, cb, id);
    }
    RunOn(L, evs, more, ca, cb);
  }

  lemma OthersComplete(L: Limits, s: Sys, ca: Catalog, cb: Catalog, id: Id) returns (more: seq<Event>)
    requires CatalogOk(ca) && OneWay(L, s.a, s.b, ca) && HandsSent(s.a) && OnceInv(s.b)
    requires L.window >= 1 && L.maxAttempts >= 1 && id in s.a.out && Query(id) in s.a.sent
    requires id !in s.b.out && id in ca && HasRoom(L, s.b, id, ca[id])
    requires id in s.b.inc ==> s.b.inc[id].phase != Collecting
    requires id !in s.b.inc && id !in s.b.stored ==> s.a.out[id].acked == {}
    ensures LegalFrom(L, s, more, ca, cb) && Unaided(more) && Delivered(RunFrom(L, s, more), id, ca)
  {
    hide CatalogOk, OneWay, HandsSent, OnceInv, LegalFrom, RunFrom, Unaided, HasRoom;
    if SavingAt(s.b, id) {
      SavingIsLive(L, s, ca, id);
      more := SavingFinishes(L, s, ca, cb, id, Env(0, true));
    } else if id in s.b.inc {
      more := FinalEvents(id, s.b.inc[id], Env(0, true));
      TransferEnds(L, s, id, ca, cb, Env(0, true));
    } else if id in s.b.stored {
      more := StoredAnswers(L, s, ca, cb, id, Env(0, true));
    } else {
      var now := OldBy(L, s.a.out[id].inFlight);
      more := FromScratch(L, s, ca, cb, id, Env(now, true));
    }
  }

  lemma NotItsOwn(L: Limits, s: Sys, cb: Catalog, id: Id)
    requires OneWay(L, s.b, s.a, cb) && id !in cb
    ensures id !in s.b.out
  {
  }

  lemma SavingIsLive(L: Limits, s: Sys, ca: Catalog, id: Id)
    requires CatalogOk(ca) && OnceInv(s.b) && SavingAt(s.b, id) && OneWay(L, s.a, s.b, ca)
    ensures var n := s.b.inc[id].serial; n in s.b.saving && s.b.saving[n].id == id && s.b.saving[n].total <= MAX_TRANSFER_CHUNKS
  {
    HasItsSave(s.b, id);
    hide OnceInv, CatalogOk, OneWay;
    SaveIsSmall(L, s, ca, s.b.inc[id].serial);
  }

  lemma HasItsSave(y: Engine, id: Id)
    requires OnceInv(y) && SavingAt(y, id)
    ensures y.inc[id].serial in y.saving && y.saving[y.inc[id].serial].id == id
  {
    hide SerialsOk, HandedOk;
  }

  lemma SaveIsSmall(L: Limits, s: Sys, ca: Catalog, n: nat)
    requires CatalogOk(ca) && OneWay(L, s.a, s.b, ca) && n in s.b.saving
    ensures s.b.saving[n].total <= MAX_TRANSFER_CHUNKS
  {
    assert s.b.saving[n].id in ca && s.b.saving[n].total == ChunkCount(ca[s.b.saving[n].id].header.size, CHUNK_BYTES);
    hide OneWay;
    assert ca[s.b.saving[n].id].Ok();
  }

  lemma NothingAcked(L: Limits, evs: seq<Event>, ca: Catalog, cb: Catalog, id: Id)
    requires CatalogOk(ca) && CatalogOk(cb) && Legal(L, evs, ca, cb) && NothingDiscarded(L, evs)
    requires var s := Run(L, evs); id in s.a.out && id !in s.b.inc && id !in s.b.stored
    ensures Run(L, evs).a.out[id].acked == {}
  {
    AcksAreSound(L, evs, ca, cb);
    hide Run, Legal, NothingDiscarded;
    var s := Run(L, evs);
    assert forall k :: !Holds(s.b, id, k);
    assert forall k :: k in s.a.out[id].acked ==> Holds(s.b, id, k);
  }

  lemma CollectingCompletes(L: Limits, evs: seq<Event>, ca: Catalog, cb: Catalog, id: Id) returns (more: seq<Event>)
    requires CatalogOk(ca) && CatalogOk(cb) && Legal(L, evs, ca, cb) && NothingDiscarded(L, evs)
    requires L.window >= 1 && L.maxAttempts >= 1
    requires var s := Run(L, evs); Collects(s, id) && Query(id) in s.a.sent
    ensures LegalFrom(L, Run(L, evs), more, ca, cb) && Unaided(more) && Delivered(RunFrom(L, Run(L, evs), more), id, ca)
  {
    var s := Run(L, evs);
    RunsAreSound(L, evs, ca, cb);
    var now := OldBy(L, s.a.out[id].inFlight);
    ReachableIsUnderWay(L, evs, ca, cb, id, now);
    var ask := Event(false, Receive(Query(id)), Env(now, true));
    assert Asks(L, s, id, ask) && Unaided([ask]);
    hide Run, Legal, CatalogOk, OneWay, LegalFrom, RunFrom, Unaided, NothingDiscarded, Live, Asks;
    var rest := LiveCompletes(L, s, ca, cb, id, ask, now);
    UnaidedJoins([ask], rest);
    more := [ask] + rest;
  }
}
