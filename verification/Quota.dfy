/** The per-IP bucket quota: admission in handleConn, teardown in dropPeer and the idle sweep
    (server/internal/relay/server.go), each an atomic step over the registry and the limiter. */
module Quotas {
  import opened Wrappers
  import opened Registries
  import opened RateLimits

  /** A live connection's bucket and seat, as its Peer records them. */
  datatype Place = Place(id: Id, slot: nat)

  datatype Relay = Relay(reg: Reg, counts: map<string, nat>, live: map<Conn, Place>)

  /** What a connection asks for. `conn` stands for its Peer. */
  datatype Request = Request(id: Id, token: string, sid: string, ip: string, conn: Conn)

  /** Admission: None if refused, else whether the bucket was found. `allowed` is the create
      limiter's answer. */
  function Admit(s: Relay, max: int, r: Request, allowed: bool): (Relay, Option<bool>) {
    if r.id in s.reg then (s, Some(true))
    else if !allowed then (s, None)
    else
      var a := AcquireStep(s.counts, r.ip, max);
      if a.1 then (s.(counts := a.0), Some(false)) else (s, None)
  }

  /** The rest of handleConn up to the seat, for a connection admitted with `found`. */
  function Seated(cfg: Config, s: Relay, found: bool, r: Request, now: int, upgraded: bool): Relay {
    if !upgraded then (if found then s else s.(counts := ReleaseStep(s.counts, r.ip)))
    else
      var j := JoinStep(cfg, s.reg, r.id, r.token, r.sid, r.ip, r.conn, now);
      match j.1
      case Full => s.(reg := j.0, counts := if found then s.counts else ReleaseStep(s.counts, r.ip))
      case Joined(slot, _) => s.(reg := j.0, live := s.live[r.conn := Place(r.id, slot)])
  }

  function Connect(cfg: Config, s: Relay, max: int, r: Request, now: int, allowed: bool, upgraded: bool): Relay {
    var a := Admit(s, max, r, allowed);
    if a.1.None? then s else Seated(cfg, a.0, a.1.value, r, now, upgraded)
  }

  function CreatorIP(reg: Reg, id: Id): string { if id in reg then reg[id].creatorIP else "" }

  /** dropPeer, once per connection. */
  function Drop(cfg: Config, s: Relay, conn: Conn, now: int): Relay {
    if conn !in s.live then s
    else
      var at := s.live[conn];
      var creator := CreatorIP(s.reg, at.id);
      var l := LeaveStep(cfg, s.reg, at.id, at.slot, now);
      Relay(l.0, if l.1 && creator != "" then ReleaseStep(s.counts, creator) else s.counts, s.live - {conn})
  }

  function ReleaseAll(counts: map<string, nat>, ips: seq<string>): map<string, nat> {
    if ips == [] then counts else ReleaseStep(ReleaseAll(counts, ips[..|ips| - 1]), ips[|ips| - 1])
  }

  /** What SweepIdle reports: each creator as often as it lost a bucket. */
  ghost predicate Reports(before: Reg, after: Reg, creators: seq<string>) {
    && "" !in creators
    && forall ip {:trigger Gone(before, after, ip)} :: ip != "" ==> multiset(creators)[ip] == |Gone(before, after, ip)|
  }

  function Sweep(cfg: Config, s: Relay, creators: seq<string>, now: int): Relay {
    s.(reg := SweepStep(cfg, s.reg, now), counts := ReleaseAll(s.counts, creators))
  }

  // ---- The server ---------------------------------------------------------

  class Server {
    const registry: Registry
    const limit: Limiter
    var live: map<Conn, Place>

    ghost function State(): Relay
      reads this, registry, limit
    {
      Relay(registry.m, limit.buckets, live)
    }

    constructor (registry: Registry, limit: Limiter)
      ensures this.registry == registry && this.limit == limit && live == map[]
    {
      this.registry, this.limit, live := registry, limit, map[];
    }

    method HandleConn(r: Request, clock: int, now: int, upgraded: bool) returns (seated: bool)
      modifies this, registry, limit
      ensures var allowed := CreateStep(old(limit.WindowOf(r.ip)), clock, limit.createWindow, limit.createLimit).1;
              State() == Connect(registry.cfg, old(State()), limit.maxBuckets, r, now, allowed, upgraded)
      ensures if seated then r.conn in live else live == old(live)
      ensures limit.WindowOf(r.ip) == if r.id in old(registry.m) then old(limit.WindowOf(r.ip))
                                      else CreateStep(old(limit.WindowOf(r.ip)), clock, limit.createWindow, limit.createLimit).0
      ensures forall ip :: ip != r.ip ==> limit.WindowOf(ip) == old(limit.WindowOf(ip))
    {
      hide JoinStep, CreateStep;
      var found := r.id in registry.m;
      if !found {
        var allowed := limit.AllowCreate(r.ip, clock);
        if !allowed { return false; }
        var acquired := limit.TryAcquireBucket(r.ip);
        if !acquired { return false; }
      }
      if !upgraded {
        if !found { limit.ReleaseBucket(r.ip); }
        return false;
      }
      var j := registry.Join(r.id, r.token, r.sid, r.ip, r.conn, now);
      if j.Full? {
        if !found { limit.ReleaseBucket(r.ip); }
        return false;
      }
      live := live[r.conn := Place(r.id, j.slot)];
      seated := true;
    }

    method DropPeer(conn: Conn, now: int)
      modifies this, registry, limit
      ensures State() == Drop(registry.cfg, old(State()), conn, now) && limit.creates == old(limit.creates)
    {
      hide LeaveStep;
      if conn !in live { return; }
      var at := live[conn];
      var creator := if at.id in registry.m then registry.m[at.id].creatorIP else "";
      live := live - {conn};
      var deleted, _ := registry.Leave(at.id, at.slot, now);
      if deleted && creator != "" { limit.ReleaseBucket(creator); }
    }

    /** One tick of sweepLoop. */
    method SweepOnce(now: int) returns (creators: seq<string>)
      modifies registry, limit
      ensures Reports(old(registry.m), registry.m, creators)
      ensures State() == Sweep(registry.cfg, old(State()), creators, now) && limit.creates == old(limit.creates)
    {
      hide SweepStep;
      creators := registry.SweepIdle(now);
      for k := 0 to |creators|
        invariant registry.m == SweepStep(registry.cfg, old(registry.m), now) && live == old(live)
        invariant limit.buckets == ReleaseAll(old(limit.buckets), creators[..k])
        invariant Reports(old(registry.m), registry.m, creators) && limit.creates == old(limit.creates)
      {
        assert creators[..k + 1][..k] == creators[..k];
        limit.ReleaseBucket(creators[k]);
      }
      assert creators[..|creators|] == creators;
    }
  }

  // ---- Conservation -------------------------------------------------------

  ghost function Owned(reg: Reg, ip: string): set<Id> { set id | id in reg && reg[id].creatorIP == ip }

  /** The limiter counts, for each IP, exactly the buckets it has created that still exist. */
  ghost predicate Balanced(s: Relay) {
    forall ip {:trigger Owned(s.reg, ip)} :: ip != "" ==> Count(s.counts, ip) == |Owned(s.reg, ip)|
  }

  /** ... but for one more count at `extra`, if it is not empty. */
  ghost predicate BalancedBut(s: Relay, extra: string) {
    forall ip {:trigger Owned(s.reg, ip)} ::
      ip != "" ==> Count(s.counts, ip) == |Owned(s.reg, ip)| + if ip == extra then 1 else 0
  }

  ghost predicate CreatorsNamed(reg: Reg) { forall id :: id in reg ==> reg[id].creatorIP != "" }

  /** Every live connection sits, connected, in the seat it believes it has. */
  ghost predicate LiveSeated(s: Relay) {
    forall c :: c in s.live ==>
      && s.live[c].id in s.reg && Occupied(s.reg[s.live[c].id], s.live[c].slot)
      && s.reg[s.live[c].id].seats[s.live[c].slot].value.connected
      && s.reg[s.live[c].id].seats[s.live[c].slot].value.conn == Some(c)
  }

  ghost predicate Inv(s: Relay) { Balanced(s) && CreatorsNamed(s.reg) && LiveSeated(s) }

  lemma ReleaseCounts(m: map<string, nat>, ip: string, other: string)
    ensures Count(ReleaseStep(m, ip), other) == if other == ip && Count(m, ip) > 0 then Count(m, ip) - 1 else Count(m, other)
  {
  }

  lemma AcquireCounts(m: map<string, nat>, ip: string, max: int, other: string)
    requires AcquireStep(m, ip, max).1
    ensures Count(AcquireStep(m, ip, max).0, other) == Count(m, other) + if other == ip then 1 else 0
    ensures Count(m, ip) < max
  {
  }

  lemma {:induction false} ReleaseAllCounts(m: map<string, nat>, ips: seq<string>, other: string)
    requires multiset(ips)[other] <= Count(m, other)
    ensures Count(ReleaseAll(m, ips), other) == Count(m, other) - multiset(ips)[other]
  {
    if ips != [] {
      var n := |ips| - 1;
      assert ips == ips[..n] + [ips[n]];
      ReleaseAllCounts(m, ips[..n], other);
      ReleaseCounts(ReleaseAll(m, ips[..n]), ips[n], other);
    }
  }

  lemma OwnedAdd(reg: Reg, id: Id, b: Bucket, ip: string)
    requires id !in reg
    ensures |Owned(reg[id := b], ip)| == |Owned(reg, ip)| + if ip == b.creatorIP then 1 else 0
  {
    if ip == b.creatorIP {
      assert Owned(reg[id := b], ip) == Owned(reg, ip) + {id};
    } else {
      assert Owned(reg[id := b], ip) == Owned(reg, ip);
    }
  }

  lemma OwnedRemove(reg: Reg, id: Id, ip: string)
    requires id in reg
    ensures |Owned(reg - {id}, ip)| == |Owned(reg, ip)| - if ip == reg[id].creatorIP then 1 else 0
  {
    if ip == reg[id].creatorIP {
      assert Owned(reg - {id}, ip) == Owned(reg, ip) - {id};
    } else {
      assert Owned(reg - {id}, ip) == Owned(reg, ip);
    }
  }

  lemma OwnedSame(reg: Reg, reg': Reg, ip: string)
    requires reg'.Keys == reg.Keys && forall id :: id in reg ==> reg'[id].creatorIP == reg[id].creatorIP
    ensures Owned(reg', ip) == Owned(reg, ip)
  {
  }

  lemma SweptGone(before: Reg, after: Reg, ip: string)
    requires after.Keys <= before.Keys && forall id :: id in after ==> after[id] == before[id]
    ensures |Gone(before, after, ip)| + |Owned(after, ip)| == |Owned(before, ip)|
  {
    assert Owned(before, ip) == Gone(before, after, ip) + Owned(after, ip);
    assert Gone(before, after, ip) !! Owned(after, ip);
  }

  lemma SweepKeepsBalance(cfg: Config, s: Relay, creators: seq<string>, now: int)
    requires Balanced(s) && Reports(s.reg, SweepStep(cfg, s.reg, now), creators)
    ensures Balanced(Sweep(cfg, s, creators, now))
  {
    var after := SweepStep(cfg, s.reg, now);
    forall ip | ip != "" ensures Count(ReleaseAll(s.counts, creators), ip) == |Owned(after, ip)| {
      SweptGone(s.reg, after, ip);
      assert |Gone(s.reg, after, ip)| == multiset(creators)[ip];
      ReleaseAllCounts(s.counts, creators, ip);
    }
  }

  /** Exactly when a drop upsets the balance: the bucket is there, the seat is not, and every
      other seat has expired, so that Leave reports a deletion it has not made. */
  lemma DropBalancedIff(cfg: Config, s: Relay, conn: Conn, now: int)
    requires Balanced(s) && CreatorsNamed(s.reg) && conn in s.live
    ensures Balanced(Drop(cfg, s, conn, now)) <==>
            var at := s.live[conn];
            !(at.id in s.reg && !Occupied(s.reg[at.id], at.slot) && ShouldDelete(cfg, s.reg[at.id].seats, now))
  {
    var at, t := s.live[conn], Drop(cfg, s, conn, now);
    hide ShouldDelete;
    if at.id !in s.reg {
      assert t.counts == s.counts && t.reg == s.reg;
    } else {
      var creator := s.reg[at.id].creatorIP;
      var deleted := LeaveStep(cfg, s.reg, at.id, at.slot, now).1;
      forall ip | ip != "" ensures Count(t.counts, ip) == Count(s.counts, ip) - (if deleted && ip == creator then 1 else 0) {
        assert at.id in Owned(s.reg, creator);
        ReleaseCounts(s.counts, creator, ip);
      }
      if Occupied(s.reg[at.id], at.slot) {
        LeaveOwned(cfg, s.reg, at.id, at.slot, now);
      } else if deleted {
        assert t.reg == s.reg;
        assert Count(t.counts, creator) != |Owned(s.reg, creator)|;
      }
    }
  }

  lemma LeaveOwned(cfg: Config, reg: Reg, id: Id, slot: int, now: int)
    requires id in reg && Occupied(reg[id], slot)
    ensures var l := LeaveStep(cfg, reg, id, slot, now);
            forall ip :: |Owned(l.0, ip)| == |Owned(reg, ip)| - if l.1 && ip == reg[id].creatorIP then 1 else 0
  {
    var l := LeaveStep(cfg, reg, id, slot, now);
    hide ShouldDelete;
    forall ip ensures |Owned(l.0, ip)| == |Owned(reg, ip)| - if l.1 && ip == reg[id].creatorIP then 1 else 0 {
      if l.1 { OwnedRemove(reg, id, ip); } else { OwnedSame(reg, l.0, ip); }
    }
  }

  lemma AdmitCounts(s: Relay, max: int, r: Request, allowed: bool)
    requires Balanced(s)
    ensures var a := Admit(s, max, r, allowed);
            && a.0.reg == s.reg && a.0.live == s.live && (a.1.Some? ==> (a.1.value <==> r.id in s.reg))
            && BalancedBut(a.0, if a.1 == Some(false) then r.ip else "")
  {
  }

  lemma JoinOwned(cfg: Config, reg: Reg, r: Request, now: int)
    ensures var j := JoinStep(cfg, reg, r.id, r.token, r.sid, r.ip, r.conn, now);
            && (r.id !in reg ==> j.1.Joined?)
            && forall ip :: |Owned(j.0, ip)| == |Owned(reg, ip)| + if r.id !in reg && ip == r.ip then 1 else 0
  {
    hide JoinSeats;
    var j := JoinStep(cfg, reg, r.id, r.token, r.sid, r.ip, r.conn, now);
    forall ip ensures |Owned(j.0, ip)| == |Owned(reg, ip)| + if r.id !in reg && ip == r.ip then 1 else 0 {
      if r.id !in reg {
        OwnedAdd(reg, r.id, Bucket([Some(NewPeer(r.token, r.sid, r.ip, r.conn, now)), None], now, now, r.ip), ip);
      } else {
        OwnedSame(reg, j.0, ip);
      }
    }
  }

  /** Exactly when seating an admitted connection restores the balance: what admission saw of the
      bucket must still be so, unless nothing is seated. Between the two the bucket may have been
      created by another, which leaks a count, or swept, which leaves a bucket uncounted. */
  lemma SeatedBalancedIff(cfg: Config, s: Relay, found: bool, r: Request, now: int, upgraded: bool)
    requires r.ip != "" && BalancedBut(s, if found then "" else r.ip)
    ensures Balanced(Seated(cfg, s, found, r, now, upgraded)) <==>
            || !upgraded || (found <==> r.id in s.reg)
            || (!found && JoinStep(cfg, s.reg, r.id, r.token, r.sid, r.ip, r.conn, now).1.Full?)
  {
    var t := Seated(cfg, s, found, r, now, upgraded);
    var j := JoinStep(cfg, s.reg, r.id, r.token, r.sid, r.ip, r.conn, now);
    JoinOwned(cfg, s.reg, r, now);
    hide JoinStep;
    forall ip ensures Count(ReleaseStep(s.counts, r.ip), ip) ==
                      if ip == r.ip && Count(s.counts, r.ip) > 0 then Count(s.counts, r.ip) - 1 else Count(s.counts, ip)
    {
      ReleaseCounts(s.counts, r.ip, ip);
    }
    assert Count(s.counts, r.ip) == |Owned(s.reg, r.ip)| + if found then 0 else 1;
    if upgraded && !(found <==> r.id in s.reg) && !(!found && j.1.Full?) {
      assert Count(t.counts, r.ip) != |Owned(t.reg, r.ip)|;
    }
  }

  lemma ConnectKeepsBalance(cfg: Config, s: Relay, max: int, r: Request, now: int, allowed: bool, upgraded: bool)
    requires Balanced(s) && r.ip != ""
    ensures Balanced(Connect(cfg, s, max, r, now, allowed, upgraded))
  {
    AdmitCounts(s, max, r, allowed);
    hide Balanced, BalancedBut;
    var a := Admit(s, max, r, allowed);
    if a.1.Some? { SeatedBalancedIff(cfg, a.0, a.1.value, r, now, upgraded); }
  }

  // ---- Live connections keep their seats ----------------------------------

  /** The connection would take over a seat that another one still holds. */
  predicate Replaces(cfg: Config, reg: Reg, r: Request, now: int) {
    r.id in reg &&
    var j := JoinSeats(cfg, reg[r.id].seats, r.token, r.sid, r.ip, r.conn, now).1;
    j.Joined? && j.slot < 2 && reg[r.id].seats[j.slot].Some? && reg[r.id].seats[j.slot].value.connected
  }

  /** A join seats the new connection, and clears or fills no other seat that is connected. */
  lemma JoinSeatsSpares(cfg: Config, seats: Seats, token: string, sid: string, ip: string, conn: Conn, now: int)
    ensures var (s, j) := JoinSeats(cfg, seats, token, sid, ip, conn, now);
            && (j.Joined? ==> j.slot < 2 && s[j.slot].Some? && s[j.slot].value.connected && s[j.slot].value.conn == Some(conn))
            && forall k :: 0 <= k < 2 && seats[k].Some? && seats[k].value.connected && !(j.Joined? && j.slot == k) ==>
                 s[k] == seats[k]
  {
    var s0 := ScanSeat(cfg, seats, 0, token, sid, now);
    assert forall k :: 0 <= k < 2 && seats[k].Some? && seats[k].value.connected ==> s0.seats[k] == seats[k];
    var s1 := ScanSeat(cfg, s0.seats, 1, token, sid, now);
    assert forall k :: 0 <= k < 2 && seats[k].Some? && seats[k].value.connected ==> s1.seats[k] == seats[k];
    assert ScanFrom(cfg, s0.seats, 1, token, sid, now) == if s1.Go? then Go(s1.seats) else s1;
    hide ScanSeat;
  }

  lemma JoinKeepsLive(cfg: Config, s: Relay, r: Request, now: int, found: bool)
    requires LiveSeated(s) && r.conn !in s.live && !Replaces(cfg, s.reg, r, now)
    ensures LiveSeated(Seated(cfg, s, found, r, now, true))
  {
    if r.id in s.reg { JoinSeatsSpares(cfg, s.reg[r.id].seats, r.token, r.sid, r.ip, r.conn, now); }
    hide JoinSeats, ReleaseStep;
  }

  lemma ConnectKeepsLive(cfg: Config, s: Relay, max: int, r: Request, now: int, allowed: bool, upgraded: bool)
    requires LiveSeated(s) && r.conn !in s.live && !(upgraded && Replaces(cfg, s.reg, r, now))
    ensures LiveSeated(Connect(cfg, s, max, r, now, allowed, upgraded))
  {
    var a := Admit(s, max, r, allowed);
    assert a.0.reg == s.reg && a.0.live == s.live;
    assert LiveSeated(a.0);
    if a.1.Some? && upgraded { JoinKeepsLive(cfg, a.0, r, now, a.1.value); }
    hide JoinStep, AcquireStep, ReleaseStep;
  }

  lemma DropKeepsLive(cfg: Config, s: Relay, conn: Conn, now: int)
    requires LiveSeated(s)
    ensures LiveSeated(Drop(cfg, s, conn, now))
  {
    hide ReleaseStep;
    if conn in s.live {
      var at, t := s.live[conn], Drop(cfg, s, conn, now);
      var before := s.reg[at.id].seats;
      var after: Seats := before[at.slot := Some(DropPeer(before[at.slot].value, now))];
      assert before[at.slot].value.conn == Some(conn);
      forall c | c in t.live && t.live[c].id == at.id
        ensures t.live[c].slot != at.slot && !ShouldDelete(cfg, after, now)
      {
        assert c in s.live && c != conn;
        assert after[t.live[c].slot] == before[t.live[c].slot];
        assert AnyConnected(after);
      }
    }
  }

  lemma SweepKeepsLive(cfg: Config, s: Relay, creators: seq<string>, now: int)
    requires LiveSeated(s)
    ensures LiveSeated(Sweep(cfg, s, creators, now))
  {
  }

  // ---- Runs ---------------------------------------------------------------

  datatype Event =
    | Connects(request: Request, allowed: bool, upgraded: bool)
    | Drops(conn: Conn)
    | SweepTick(creators: seq<string>)
    | Traffic(id: Id)

  function Step(cfg: Config, max: int, s: Relay, e: Event, now: int): Relay {
    match e
    case Connects(r, allowed, upgraded) => Connect(cfg, s, max, r, now, allowed, upgraded)
    case Drops(conn) => Drop(cfg, s, conn, now)
    case SweepTick(creators) => Sweep(cfg, s, creators, now)
    case Traffic(id) => s.(reg := TouchStep(s.reg, id, now))
  }

  /** Connections have an address and a Peer of their own and do not take over a seat that is still
      connected; a sweep reports what it removed. */
  ghost predicate Legal(cfg: Config, s: Relay, e: Event, now: int) {
    match e
    case Connects(r, _, upgraded) => r.ip != "" && r.conn !in s.live && !(upgraded && Replaces(cfg, s.reg, r, now))
    case SweepTick(creators) => Reports(s.reg, SweepStep(cfg, s.reg, now), creators)
    case _ => true
  }

  type Events = seq<(Event, int)>

  const NOTHING := Relay(map[], map[], map[])

  function Run(cfg: Config, max: int, es: Events): Relay {
    if es == [] then NOTHING else Step(cfg, max, Run(cfg, max, es[..|es| - 1]), es[|es| - 1].0, es[|es| - 1].1)
  }

  ghost predicate AllLegal(cfg: Config, max: int, es: Events) {
    forall k :: 0 <= k < |es| ==> Legal(cfg, Run(cfg, max, es[..k]), es[k].0, es[k].1)
  }

  lemma NamesKept(cfg: Config, max: int, s: Relay, e: Event, now: int)
    requires CreatorsNamed(s.reg) && (e.Connects? ==> e.request.ip != "")
    ensures CreatorsNamed(Step(cfg, max, s, e, now).reg)
  {
  }

  lemma TrafficKeeps(s: Relay, id: Id, now: int)
    requires Balanced(s) && LiveSeated(s)
    ensures Balanced(s.(reg := TouchStep(s.reg, id, now))) && LiveSeated(s.(reg := TouchStep(s.reg, id, now)))
  {
    forall ip ensures Owned(TouchStep(s.reg, id, now), ip) == Owned(s.reg, ip) {
      OwnedSame(s.reg, TouchStep(s.reg, id, now), ip);
    }
  }

  lemma StepKeeps(cfg: Config, max: int, s: Relay, e: Event, now: int)
    requires Inv(s) && Legal(cfg, s, e, now)
    ensures Inv(Step(cfg, max, s, e, now))
  {
    NamesKept(cfg, max, s, e, now);
    match e
    case Connects(r, allowed, upgraded) =>
      ConnectKeepsBalance(cfg, s, max, r, now, allowed, upgraded);
      ConnectKeepsLive(cfg, s, max, r, now, allowed, upgraded);
      hide Balanced, LiveSeated, CreatorsNamed, Connect, Replaces;
    case Drops(conn) =>
      if conn in s.live { DropBalancedIff(cfg, s, conn, now); }
      DropKeepsLive(cfg, s, conn, now);
      hide Balanced, CreatorsNamed, ShouldDelete, LeaveStep;
    case SweepTick(creators) =>
      SweepKeepsBalance(cfg, s, creators, now);
      SweepKeepsLive(cfg, s, creators, now);
      hide Balanced, LiveSeated, CreatorsNamed, Reports, Sweep;
    case Traffic(id) =>
      TrafficKeeps(s, id, now);
      hide Balanced, LiveSeated, CreatorsNamed, TouchStep;
  }

  lemma {:induction false} RunKeeps(cfg: Config, max: int, es: Events)
    requires AllLegal(cfg, max, es)
    ensures Inv(Run(cfg, max, es))
    decreases |es|
  {
    hide Inv, Step, Legal;
    if es == [] {
      NothingIsFine();
    } else {
      var n := |es| - 1;
      forall k | 0 <= k < n ensures Legal(cfg, Run(cfg, max, es[..n][..k]), es[..n][k].0, es[..n][k].1) {
        assert es[..n][..k] == es[..k];
      }
      RunKeeps(cfg, max, es[..n]);
      StepKeeps(cfg, max, Run(cfg, max, es[..n]), es[n].0, es[n].1);
    }
  }

  lemma NothingIsFine()
    ensures Inv(NOTHING)
  {
  }

  /** Quota conservation: over every legal run the limiter's count for an IP is the number of live
      buckets it created. */
  lemma QuotaConserved(cfg: Config, max: int, es: Events, ip: string)
    requires AllLegal(cfg, max, es) && ip != ""
    ensures Count(Run(cfg, max, es).counts, ip) == |Owned(Run(cfg, max, es).reg, ip)|
  {
    RunKeeps(cfg, max, es);
    hide Run, Owned, AllLegal;
  }

  /** A step adds at most one bucket, at an IP that has room. */
  lemma CountsWithin(cfg: Config, max: int, s: Relay, e: Event, now: int, ip: string)
    requires Inv(s) && Legal(cfg, s, e, now) && ip != ""
    ensures Count(Step(cfg, max, s, e, now).counts, ip) <= Count(s.counts, ip) || Count(s.counts, ip) < max
    ensures Count(Step(cfg, max, s, e, now).counts, ip) <= Count(s.counts, ip) + 1
  {
    match e
    case Connects(r, allowed, upgraded) =>
      if r.id !in s.reg && AcquireStep(s.counts, r.ip, max).1 { AcquireCounts(s.counts, r.ip, max, ip); }
      ReleaseCounts(s.counts, r.ip, ip);
      ReleaseCounts(AcquireStep(s.counts, r.ip, max).0, r.ip, ip);
      hide Count, ReleaseStep, JoinStep, Balanced, LiveSeated, CreatorsNamed;
    case Drops(conn) =>
      if conn in s.live { ReleaseCounts(s.counts, CreatorIP(s.reg, s.live[conn].id), ip); }
      hide Count, ReleaseStep, LeaveStep, Balanced, LiveSeated, CreatorsNamed;
    case SweepTick(creators) =>
      SweptGone(s.reg, SweepStep(cfg, s.reg, now), ip);
      ReleaseAllCounts(s.counts, creators, ip);
      hide Count, ReleaseAll;
    case Traffic(_) =>
  }

  /** No IP ever owns more buckets than the maximum. */
  lemma {:induction false} NeverAboveMax(cfg: Config, max: int, es: Events, ip: string)
    requires AllLegal(cfg, max, es) && ip != "" && max >= 0
    ensures |Owned(Run(cfg, max, es).reg, ip)| <= max
    decreases |es|
  {
    QuotaConserved(cfg, max, es, ip);
    hide Step, Legal, Inv, Owned;
    if es == [] {
      assert Count(NOTHING.counts, ip) == 0;
    } else {
      var n := |es| - 1;
      forall k | 0 <= k < n ensures Legal(cfg, Run(cfg, max, es[..n][..k]), es[..n][k].0, es[..n][k].1) {
        assert es[..n][..k] == es[..k];
      }
      NeverAboveMax(cfg, max, es[..n], ip);
      RunKeeps(cfg, max, es[..n]);
      QuotaConserved(cfg, max, es[..n], ip);
      CountsWithin(cfg, max, Run(cfg, max, es[..n]), es[n].0, es[n].1, ip);
    }
  }

  /** In a legal run every release gives back a count that is there: the clamp at zero is never met. */
  lemma NoReleaseIsClamped(cfg: Config, max: int, es: Events, now: int)
    requires AllLegal(cfg, max, es)
    ensures var s := Run(cfg, max, es);
            forall c :: c in s.live && CreatorIP(s.reg, s.live[c].id) != "" ==>
              Count(s.counts, CreatorIP(s.reg, s.live[c].id)) >= 1
    ensures var s := Run(cfg, max, es);
            forall creators, ip :: Reports(s.reg, SweepStep(cfg, s.reg, now), creators) && ip in creators ==>
              multiset(creators)[ip] <= Count(s.counts, ip)
  {
    RunKeeps(cfg, max, es);
    hide Run, AllLegal, Count, Swept;
    var s := Run(cfg, max, es);
    forall c | c in s.live && CreatorIP(s.reg, s.live[c].id) != ""
      ensures Count(s.counts, CreatorIP(s.reg, s.live[c].id)) >= 1
    {
      assert s.live[c].id in Owned(s.reg, CreatorIP(s.reg, s.live[c].id));
    }
    forall creators, ip | Reports(s.reg, SweepStep(cfg, s.reg, now), creators) && ip in creators
      ensures multiset(creators)[ip] <= Count(s.counts, ip)
    {
      SweptGone(s.reg, SweepStep(cfg, s.reg, now), ip);
      assert |Gone(s.reg, SweepStep(cfg, s.reg, now), ip)| == multiset(creators)[ip];
      assert Count(s.counts, ip) == |Owned(s.reg, ip)|;
    }
  }

  // ---- Who is seated ------------------------------------------------------

  /** A connection is seated exactly when it is upgraded and its bucket exists and has a seat for it, or its
      bucket is new and its address may create one: the create limiter allows it and it holds fewer
      buckets than the maximum. One that is not seated leaves all counts as they were. */
  lemma ConnectSeatsIff(cfg: Config, s: Relay, max: int, r: Request, now: int, allowed: bool, upgraded: bool)
    requires r.conn !in s.live
    ensures var t := Connect(cfg, s, max, r, now, allowed, upgraded);
            && (r.conn in t.live <==>
                  upgraded && if r.id in s.reg
                              then JoinSeats(cfg, s.reg[r.id].seats, r.token, r.sid, r.ip, r.conn, now).1.Joined?
                              else allowed && Count(s.counts, r.ip) < max)
            && (r.conn !in t.live ==>
                  t.live == s.live && t.reg.Keys == s.reg.Keys && forall ip :: Count(t.counts, ip) == Count(s.counts, ip))
            && (r.conn in t.live ==>
                  && t.live == s.live[r.conn := t.live[r.conn]] && t.live[r.conn].id == r.id && r.id in t.reg
                  && t.live[r.conn].slot < 2 && t.reg[r.id].seats[t.live[r.conn].slot].Some?
                  && t.reg[r.id].seats[t.live[r.conn].slot].value.conn == Some(r.conn)
                  && forall ip :: Count(t.counts, ip) == Count(s.counts, ip)
                                                         + if ip == r.ip && r.id !in s.reg then 1 else 0)
  {
    if r.id in s.reg { JoinedSeat(cfg, s.reg[r.id].seats, r, now); }
    hide JoinSeats;
    if r.id !in s.reg && AcquireStep(s.counts, r.ip, max).1 {
      forall ip ensures Count(ReleaseStep(AcquireStep(s.counts, r.ip, max).0, r.ip), ip) == Count(s.counts, ip)
                ensures Count(AcquireStep(s.counts, r.ip, max).0, ip) == Count(s.counts, ip) + if ip == r.ip then 1 else 0 {
        AcquireCounts(s.counts, r.ip, max, ip);
        AcquireCounts(s.counts, r.ip, max, r.ip);
        ReleaseCounts(AcquireStep(s.counts, r.ip, max).0, r.ip, ip);
      }
      hide Count, ReleaseStep;
    }
  }

  lemma JoinedSeat(cfg: Config, seats: Seats, r: Request, now: int)
    ensures var j := JoinSeats(cfg, seats, r.token, r.sid, r.ip, r.conn, now);
            j.1.Joined? ==> j.1.slot < 2 && j.0[j.1.slot].Some? && j.0[j.1.slot].value.conn == Some(r.conn)
  {
  }

  // ---- What a rejoin over a live connection does --------------------------

  /** Two peers; the second one's device connects again before its old connection is dropped. Both
      drop marks fall, the reclaim window passes, the device rejoins into the first seat, and its
      replaced connection is dropped last of all, from a seat that is no longer there. */
  function Rejoin(cfg: Config): Events {
    var later := cfg.reclaimTTL + 1;
    [(Connects(Request("room", "x", "", "ip", 1), true, true), 0),
     (Connects(Request("room", "a", "s", "ip", 2), true, true), 0),
     (Connects(Request("room", "a", "s", "ip", 3), true, true), 0),
     (Drops(2), 0), (Drops(1), 0),
     (Connects(Request("room", "a", "s", "ip", 4), true, true), later),
     (Drops(4), later), (Drops(3), 2 * later)]
  }

  lemma RunSnoc(cfg: Config, max: int, es: Events, n: nat)
    requires n < |es|
    ensures Run(cfg, max, es[..n + 1]) == Step(cfg, max, Run(cfg, max, es[..n]), es[n].0, es[n].1)
  {
    hide Step;
    assert es[..n + 1][..n] == es[..n];
  }

  lemma FirstJoin(cfg: Config, max: int)
    requires max >= 1
    ensures Step(cfg, max, NOTHING, Rejoin(cfg)[0].0, 0) ==
            Relay(map["room" := Bucket([Some(NewPeer("x", "", "ip", 1, 0)), None], 0, 0, "ip")], map["ip" := 1],
                  map[1 := Place("room", 0)])
  {
  }

  /** A connection to the room, which is there. */
  lemma JoinsRoom(cfg: Config, max: int, s: Relay, sid: string, conn: Conn, now: int, slot: nat, seats: Seats)
    requires "room" in s.reg
    requires JoinSeats(cfg, s.reg["room"].seats, "a", sid, "ip", conn, now) == (seats, Joined(slot, false))
    ensures Step(cfg, max, s, Connects(Request("room", "a", sid, "ip", conn), true, true), now) ==
            Relay(s.reg["room" := s.reg["room"].(lastSeen := now, seats := seats)], s.counts,
                  s.live[conn := Place("room", slot)])
  {
  }

  lemma DropsFromRoom(cfg: Config, max: int, s: Relay, conn: Conn, now: int)
    requires "room" in s.reg && conn in s.live && s.live[conn].id == "room" && cfg.reclaimTTL >= 0
    requires Occupied(s.reg["room"], s.live[conn].slot)
    ensures var slot := s.live[conn].slot;
            var b := s.reg["room"];
            Step(cfg, max, s, Drops(conn), now) ==
            Relay(s.reg["room" := b.(lastSeen := now, seats := b.seats[slot := Some(DropPeer(b.seats[slot].value, now))])],
                  s.counts, s.live - {conn})
  {
    var b, slot := s.reg["room"], s.live[conn].slot;
    var seats: Seats := b.seats[slot := Some(DropPeer(b.seats[slot].value, now))];
    assert Within(cfg, seats[slot].value, now);
  }

  lemma TokensDiffer()
    ensures "x" != "a" && "s" != "" && "a" != "" && "ip" != ""
  {
  }

  /** The device's three joins: beside the first peer, ... */
  lemma JoinsBeside(cfg: Config, x: Peer, conn: Conn, now: int)
    requires x.token == "x" && x.connected
    ensures JoinSeats(cfg, [Some(x), None], "a", "s", "ip", conn, now)
            == ([Some(x), Some(NewPeer("a", "s", "ip", conn, now))], Joined(1, false))
  {
    TokensDiffer();
    var seats: Seats := [Some(x), None];
    assert ScanSeat(cfg, seats, 0, "a", "s", now) == Go(seats) == ScanSeat(cfg, seats, 1, "a", "s", now);
    assert ScanFrom(cfg, seats, 2, "a", "s", now) == Go(seats) == ScanFrom(cfg, seats, 1, "a", "s", now);
    hide ScanSeat;
    assert !Free(cfg, seats[0], now) && Free(cfg, seats[1], now);
    assert FirstFree(cfg, seats, 1, now) == 1 == FirstFree(cfg, seats, 0, now);
    assert seats[1 := Some(NewPeer("a", "s", "ip", conn, now))] == [Some(x), Some(NewPeer("a", "s", "ip", conn, now))];
  }

  /** ... over itself ... */
  lemma JoinsOver(cfg: Config, x: Peer, a: Peer, conn: Conn, now: int)
    requires x.token == "x" && a.token == "a" && a.session == "s" && a.connected
    ensures JoinSeats(cfg, [Some(x), Some(a)], "a", "s", "ip", conn, now)
            == ([Some(x), Some(Reseat(a, "s", "ip", conn, now))], Joined(1, false))
  {
    TokensDiffer();
    var seats: Seats := [Some(x), Some(a)];
    assert ScanSeat(cfg, seats, 0, "a", "s", now) == Go(seats) && ScanSeat(cfg, seats, 1, "a", "s", now) == Taken(1, seats);
    assert ScanFrom(cfg, seats, 1, "a", "s", now) == Taken(1, seats) == ScanFrom(cfg, seats, 0, "a", "s", now);
    hide ScanSeat;
    assert seats[1 := Some(Reseat(a, "s", "ip", conn, now))] == [Some(x), Some(Reseat(a, "s", "ip", conn, now))];
  }

  /** ... and after the window, when its own seat is cleared and the first one is free. */
  lemma JoinsLate(cfg: Config, x: Peer, a: Peer, conn: Conn, now: int)
    requires x.token == "x" && a.token == "a" && a.session == "s" && !SeatHeld(cfg, x, now) && !SeatHeld(cfg, a, now)
    ensures JoinSeats(cfg, [Some(x), Some(a)], "a", "s", "ip", conn, now)
            == ([Some(NewPeer("a", "s", "ip", conn, now)), None], Joined(0, false))
  {
    TokensDiffer();
    var seats: Seats, cleared: Seats := [Some(x), Some(a)], [Some(x), None];
    assert seats[1 := None] == cleared;
    assert ScanSeat(cfg, seats, 0, "a", "s", now) == Go(seats) && ScanSeat(cfg, seats, 1, "a", "s", now) == Go(cleared);
    assert ScanFrom(cfg, cleared, 2, "a", "s", now) == Go(cleared) == ScanFrom(cfg, seats, 1, "a", "s", now);
    hide ScanSeat;
    assert Free(cfg, cleared[0], now) && FirstFree(cfg, cleared, 0, now) == 0;
    assert cleared[0 := Some(NewPeer("a", "s", "ip", conn, now))] == [Some(NewPeer("a", "s", "ip", conn, now)), None];
  }

  /** The rejoin run up to the moment the window has passed. */
  lemma BeforeTheWindow(cfg: Config, max: int)
    requires cfg.reclaimTTL >= 0 && max >= 1
    ensures var s := Run(cfg, max, Rejoin(cfg)[..5]);
            && s.reg.Keys == {"room"} && s.counts == map["ip" := 1] && s.live.Keys == {3} && s.live[3] == Place("room", 1)
            && s.reg["room"].creatorIP == "ip" && exists x, a ::
              && s.reg["room"].seats == [Some(x), Some(a)] && x.token == "x" && a.token == "a" && a.session == "s"
              && x.droppedAt == Some(0) == a.droppedAt && !x.connected && !a.connected
  {
    var es := Rejoin(cfg);
    assert es[..0] == [];
    RunSnoc(cfg, max, es, 0);
    RunSnoc(cfg, max, es, 1);
    RunSnoc(cfg, max, es, 2);
    RunSnoc(cfg, max, es, 3);
    RunSnoc(cfg, max, es, 4);
    FirstJoin(cfg, max);
    hide Step, Run, JoinSeats;
    var x, a := NewPeer("x", "", "ip", 1, 0), NewPeer("a", "s", "ip", 2, 0);
    var s1 := Run(cfg, max, es[..1]);
    JoinsBeside(cfg, x, 2, 0);
    JoinsRoom(cfg, max, s1, "s", 2, 0, 1, [Some(x), Some(a)]);
    var s2 := Run(cfg, max, es[..2]);
    JoinsOver(cfg, x, a, 3, 0);
    JoinsRoom(cfg, max, s2, "s", 3, 0, 1, [Some(x), Some(Reseat(a, "s", "ip", 3, 0))]);
    var s3 := Run(cfg, max, es[..3]);
    DropsFromRoom(cfg, max, s3, 2, 0);
    var s4 := Run(cfg, max, es[..4]);
    DropsFromRoom(cfg, max, s4, 1, 0);
    var s5 := Run(cfg, max, es[..5]);
    var y, b := DropPeer(x, 0), DropPeer(Reseat(a, "s", "ip", 3, 0), 0);
    assert s5.reg["room"].seats == [Some(y), Some(b)];
    assert s5.live.Keys == {3};
  }

  /** A drop from an empty seat of an expired room releases its creator and leaves the room. */
  lemma DropFromNowhere(cfg: Config, max: int, s: Relay, conn: Conn, now: int)
    requires "room" in s.reg && conn in s.live && s.live[conn] == Place("room", 1) && s.reg["room"].creatorIP == "ip"
    requires s.reg["room"].seats[1].None? && s.reg["room"].seats[0].Some?
    requires !SeatHeld(cfg, s.reg["room"].seats[0].value, now)
    ensures Step(cfg, max, s, Drops(conn), now) == Relay(s.reg, ReleaseStep(s.counts, "ip"), s.live - {conn})
  {
  }

  /** From there on: the device's late rejoin, its drop, and the drop of its first connection. */
  lemma AfterTheWindow(cfg: Config, max: int, s: Relay, x: Peer, a: Peer, later: int)
    requires cfg.reclaimTTL >= 0 && later == cfg.reclaimTTL + 1
    requires "room" in s.reg && s.reg["room"].seats == [Some(x), Some(a)] && s.reg["room"].creatorIP == "ip"
    requires x.token == "x" && a.token == "a" && a.session == "s" && !x.connected && !a.connected
    requires x.droppedAt == Some(0) == a.droppedAt && 3 in s.live && s.live[3] == Place("room", 1)
    requires s.counts == map["ip" := 1]
    ensures var s6 := Step(cfg, max, s, Connects(Request("room", "a", "s", "ip", 4), true, true), later);
            var t := Step(cfg, max, Step(cfg, max, s6, Drops(4), later), Drops(3), 2 * later);
            "room" in t.reg && t.reg["room"].creatorIP == "ip" && Count(t.counts, "ip") == 0
  {
    hide JoinSeats, Step;
    JoinsLate(cfg, x, a, 4, later);
    JoinsRoom(cfg, max, s, "s", 4, later, 0, [Some(NewPeer("a", "s", "ip", 4, later)), None]);
    var s6 := Step(cfg, max, s, Connects(Request("room", "a", "s", "ip", 4), true, true), later);
    DropsFromRoom(cfg, max, s6, 4, later);
    var s7 := Step(cfg, max, s6, Drops(4), later);
    assert s7.reg["room"].seats == [Some(DropPeer(NewPeer("a", "s", "ip", 4, later), later)), None];
    DropFromNowhere(cfg, max, s7, 3, 2 * later);
  }

  lemma LastThree(cfg: Config, max: int, es: Events)
    requires |es| == 8
    ensures Run(cfg, max, es) ==
            Step(cfg, max, Step(cfg, max, Step(cfg, max, Run(cfg, max, es[..5]), es[5].0, es[5].1), es[6].0, es[6].1),
                 es[7].0, es[7].1)
  {
    hide Step, Run;
    RunSnoc(cfg, max, es, 5);
    RunSnoc(cfg, max, es, 6);
    RunSnoc(cfg, max, es, 7);
    assert es[..8] == es;
  }

  /** The quota is released twice over: the bucket still exists and its creator is not charged. */
  lemma RejoinReleasesTwice(cfg: Config, max: int)
    requires cfg.reclaimTTL >= 0 && max >= 1
    ensures var s := Run(cfg, max, Rejoin(cfg));
            "room" in s.reg && s.reg["room"].creatorIP == "ip" && Count(s.counts, "ip") == 0
  {
    var es, later := Rejoin(cfg), cfg.reclaimTTL + 1;
    assert |es| == 8 && es[5] == (Connects(Request("room", "a", "s", "ip", 4), true, true), later);
    assert es[6] == (Drops(4), later) && es[7] == (Drops(3), 2 * later);
    BeforeTheWindow(cfg, max);
    hide Run, Step, Count, Rejoin;
    var s5 := Run(cfg, max, es[..5]);
    var x, a :| s5.reg["room"].seats == [Some(x), Some(a)] && x.token == "x" && a.token == "a" && a.session == "s"
                && x.droppedAt == Some(0) == a.droppedAt && !x.connected && !a.connected;
    AfterTheWindow(cfg, max, s5, x, a, later);
    LastThree(cfg, max, es);
  }
}
