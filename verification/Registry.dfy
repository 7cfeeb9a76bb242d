/** Two-seat buckets with reclaim windows (server/internal/bucket/bucket.go). Join, Leave and
    SweepIdle are taken as atomic steps of a clock that never goes back. */
module Registries {
  import opened Wrappers

  type Id = string
  type Conn = nat

  /** `droppedAt` is None while Go's DroppedAt is the zero time. */
  datatype Peer = Peer(
    conn: Option<Conn>,
    token: string,
    session: string,
    lastSeen: int,
    ip: string,
    droppedAt: Option<int>,
    connected: bool)

  type Seats = s: seq<Option<Peer>> | |s| == 2 witness [None, None]

  datatype Bucket = Bucket(seats: Seats, created: int, lastSeen: int, creatorIP: string)

  datatype Config = Config(idleTTL: int, reclaimTTL: int)

  type Reg = map<Id, Bucket>

  datatype JoinResult = Joined(slot: nat, created: bool) | Full

  predicate Within(cfg: Config, p: Peer, now: int) { p.droppedAt.Some? && now - p.droppedAt.value <= cfg.reclaimTTL }

  predicate SeatHeld(cfg: Config, p: Peer, now: int) { p.connected || Within(cfg, p, now) }

  predicate SessionMatches(p: Peer, sid: string) { p.session == "" || (sid != "" && p.session == sid) }

  predicate ThirdParty(p: Peer, sid: string) { p.session != "" && sid != "" && p.session != sid }

  function NewPeer(token: string, sid: string, ip: string, conn: Conn, now: int): Peer {
    Peer(Some(conn), token, sid, now, ip, None, true)
  }

  /** A reclaimed seat keeps its token and adopts the session id if one is given. */
  function Reseat(p: Peer, sid: string, ip: string, conn: Conn, now: int): Peer {
    p.(conn := Some(conn), lastSeen := now, droppedAt := None, connected := true, ip := ip,
       session := if sid != "" then sid else p.session)
  }

  /** How the reclaim loop stands: refused, a seat reclaimed, or on to the next seat. */
  datatype Scan = Refused(seats: Seats) | Taken(slot: nat, seats: Seats) | Go(seats: Seats)

  /** The reclaim loop's work at seat i. */
  function ScanSeat(cfg: Config, seats: Seats, i: nat, token: string, sid: string, now: int): (s: Scan)
    requires i < 2
    ensures s.Taken? ==> s.slot < 2 && s.seats[s.slot].Some?
  {
    if seats[i].None? || seats[i].value.token != token then Go(seats)
    else
      var p := seats[i].value;
      if ThirdParty(p, sid) && SeatHeld(cfg, p, now) then Refused(seats)
      else if SessionMatches(p, sid) && p.connected then Taken(i, seats)
      else if SessionMatches(p, sid) && Within(cfg, p, now) then Taken(i, seats)
      else if !p.connected && !SeatHeld(cfg, p, now) then Go(seats[i := None])
      else Go(seats)
  }

  function ScanFrom(cfg: Config, seats: Seats, i: nat, token: string, sid: string, now: int): (s: Scan)
    requires i <= 2
    ensures s.Taken? ==> s.slot < 2 && s.seats[s.slot].Some?
    decreases 2 - i
  {
    if i == 2 then Go(seats)
    else
      var s := ScanSeat(cfg, seats, i, token, sid, now);
      if s.Go? then ScanFrom(cfg, s.seats, i + 1, token, sid, now) else s
  }

  predicate Free(cfg: Config, seat: Option<Peer>, now: int) {
    seat.None? || (!seat.value.connected && !SeatHeld(cfg, seat.value, now))
  }

  /** The first free seat at or after i, 2 if there is none. */
  function FirstFree(cfg: Config, seats: Seats, i: nat, now: int): (k: nat)
    requires i <= 2
    ensures i <= k <= 2 && (k < 2 ==> Free(cfg, seats[k], now))
    ensures forall j :: i <= j < k ==> !Free(cfg, seats[j], now)
    decreases 2 - i
  {
    if i == 2 || Free(cfg, seats[i], now) then i else FirstFree(cfg, seats, i + 1, now)
  }

  /** Join: reclaim by token and device session, else the first free seat, else "full". */
  function JoinSeats(cfg: Config, seats: Seats, token: string, sid: string, ip: string, conn: Conn, now: int)
    : (Seats, JoinResult)
  {
    var s := if token == "" then Go(seats) else ScanFrom(cfg, seats, 0, token, sid, now);
    match s
    case Refused(seats) => (seats, Full)
    case Taken(k, seats) => (seats[k := Some(Reseat(seats[k].value, sid, ip, conn, now))], Joined(k, false))
    case Go(seats) =>
      var k := FirstFree(cfg, seats, 0, now);
      if k < 2 then (seats[k := Some(NewPeer(token, sid, ip, conn, now))], Joined(k, false)) else (seats, Full)
  }

  function JoinStep(cfg: Config, reg: Reg, id: Id, token: string, sid: string, ip: string, conn: Conn, now: int)
    : (Reg, JoinResult)
  {
    if id !in reg then
      (reg[id := Bucket([Some(NewPeer(token, sid, ip, conn, now)), None], now, now, ip)], Joined(0, true))
    else
      var r := JoinSeats(cfg, reg[id].seats, token, sid, ip, conn, now);
      (reg[id := reg[id].(lastSeen := now, seats := r.0)], r.1)
  }

  predicate AnyConnected(seats: Seats) { exists k :: 0 <= k < 2 && seats[k].Some? && seats[k].value.connected }

  predicate AnyWithin(cfg: Config, seats: Seats, now: int) {
    exists k :: 0 <= k < 2 && seats[k].Some? && Within(cfg, seats[k].value, now)
  }

  predicate ShouldDelete(cfg: Config, seats: Seats, now: int) { !AnyConnected(seats) && !AnyWithin(cfg, seats, now) }

  function DropPeer(p: Peer, now: int): Peer {
    p.(connected := false, droppedAt := Some(now), conn := None, lastSeen := now)
  }

  predicate Occupied(b: Bucket, slot: int) { 0 <= slot < 2 && b.seats[slot].Some? }

  /** Leave: the new registry and whether the caller is told the bucket is gone. */
  function LeaveStep(cfg: Config, reg: Reg, id: Id, slot: int, now: int): (Reg, bool) {
    if id !in reg then (reg, true)
    else if !Occupied(reg[id], slot) then (reg, ShouldDelete(cfg, reg[id].seats, now))
    else
      var seats := reg[id].seats[slot := Some(DropPeer(reg[id].seats[slot].value, now))];
      if ShouldDelete(cfg, seats, now) then (reg - {id}, true)
      else (reg[id := reg[id].(lastSeen := now, seats := seats)], false)
  }

  predicate Swept(cfg: Config, b: Bucket, now: int) {
    !AnyConnected(b.seats) && (!AnyWithin(cfg, b.seats, now) || now - b.lastSeen >= cfg.idleTTL)
  }

  function SweepStep(cfg: Config, reg: Reg, now: int): Reg { map id | id in reg && !Swept(cfg, reg[id], now) :: reg[id] }

  /** Bucket.Touch, on traffic. */
  function TouchStep(reg: Reg, id: Id, now: int): Reg {
    if id !in reg then reg
    else
      reg[id := reg[id].(lastSeen := now, seats := [TouchSeat(reg[id].seats[0], now), TouchSeat(reg[id].seats[1], now)])]
  }

  function TouchSeat(s: Option<Peer>, now: int): Option<Peer> {
    if s.Some? && s.value.connected then Some(s.value.(lastSeen := now)) else s
  }

  // ---- The registry object ------------------------------------------------

  class Registry {
    const cfg: Config
    var m: Reg

    constructor (cfg: Config)
      ensures this.cfg == cfg && m == map[]
    {
      this.cfg := cfg;
      m := map[];
    }

    method Join(id: Id, token: string, sid: string, ip: string, conn: Conn, now: int) returns (r: JoinResult)
      modifies this
      ensures (m, r) == JoinStep(cfg, old(m), id, token, sid, ip, conn, now)
    {
      if id !in m {
        m := m[id := Bucket([Some(NewPeer(token, sid, ip, conn, now)), None], now, now, ip)];
        return Joined(0, true);
      }
      var b := m[id].(lastSeen := now);
      var seats := b.seats;
      if token != "" {
        for i := 0 to 2
          invariant m == old(m) && b == m[id].(lastSeen := now)
          invariant ScanFrom(cfg, seats, i, token, sid, now) == ScanFrom(cfg, b.seats, 0, token, sid, now)
        {
          if seats[i].None? || seats[i].value.token != token { continue; }
          var p := seats[i].value;
          var seatHeld := SeatHeld(cfg, p, now);
          if ThirdParty(p, sid) && seatHeld {
            m := m[id := b.(seats := seats)];
            return Full;
          }
          if SessionMatches(p, sid) && (p.connected || Within(cfg, p, now)) {
            m := m[id := b.(seats := seats[i := Some(Reseat(p, sid, ip, conn, now))])];
            return Joined(i, false);
          }
          if !p.connected && !seatHeld {
            seats := seats[i := None];
          }
        }
      }
      for i := 0 to 2
        invariant m == old(m)
        invariant FirstFree(cfg, seats, i, now) == FirstFree(cfg, seats, 0, now)
      {
        if seats[i].None? || (!seats[i].value.connected && !SeatHeld(cfg, seats[i].value, now)) {
          m := m[id := b.(seats := seats[i := Some(NewPeer(token, sid, ip, conn, now))])];
          return Joined(i, false);
        }
      }
      m := m[id := b.(seats := seats)];
      return Full;
    }

    /** `other` is the conn to tell that its peer has left. */
    method Leave(id: Id, slot: int, now: int) returns (deleted: bool, other: Option<Conn>)
      modifies this
      ensures (m, deleted) == LeaveStep(cfg, old(m), id, slot, now)
      ensures other == if id in old(m) && Occupied(old(m)[id], slot) && Occupied(old(m)[id], 1 - slot) &&
                          old(m)[id].seats[1 - slot].value.connected
                       then old(m)[id].seats[1 - slot].value.conn else None
    {
      other := None;
      if id !in m { return true, None; }
      var b := m[id];
      if slot < 0 || slot > 1 || b.seats[slot].None? {
        deleted := CanDelete(b.seats, now);
        return;
      }
      var p := b.seats[slot].value.(connected := false, droppedAt := Some(now), conn := None, lastSeen := now);
      var seats := b.seats[slot := Some(p)];
      if seats[1 - slot].Some? && seats[1 - slot].value.connected {
        other := seats[1 - slot].value.conn;
      }
      deleted := CanDelete(seats, now);
      if deleted {
        m := m - {id};
      } else {
        m := m[id := b.(lastSeen := now, seats := seats)];
      }
    }

    /** shouldDeleteLocked. */
    method CanDelete(seats: Seats, now: int) returns (r: bool)
      ensures r == ShouldDelete(cfg, seats, now)
    {
      var connected := 0;
      for k := 0 to 2
        invariant connected > 0 <==> exists j :: 0 <= j < k && seats[j].Some? && seats[j].value.connected
        invariant connected >= 0
      {
        if seats[k].Some? && seats[k].value.connected { connected := connected + 1; }
      }
      if connected > 0 { return false; }
      for k := 0 to 2
        invariant forall j :: 0 <= j < k && seats[j].Some? ==> !Within(cfg, seats[j].value, now)
      {
        if seats[k].Some? && Within(cfg, seats[k].value, now) { return false; }
      }
      return true;
    }

    /** SweepIdle: removes every bucket due and reports the creators to release. */
    method SweepIdle(now: int) returns (creators: seq<string>)
      modifies this
      ensures m == SweepStep(cfg, old(m), now)
      ensures forall ip {:trigger Gone(old(m), m, ip)} :: ip != "" ==> multiset(creators)[ip] == |Gone(old(m), m, ip)|
      ensures "" !in creators
    {
      hide Swept;
      creators := [];
      var before := m;
      var todo := before.Keys;
      while todo != {}
        invariant todo <= before.Keys
        invariant m == map id | id in before && (id in todo || !Swept(cfg, before[id], now)) :: before[id]
        invariant "" !in creators
        invariant forall ip {:trigger Gone(before, m, ip)} :: ip != "" ==> multiset(creators)[ip] == |Gone(before, m, ip)|
        decreases todo
      {
        var id :| id in todo;
        var b := before[id];
        todo := todo - {id};
        if Swept(cfg, b, now) {
          forall ip ensures |Gone(before, m - {id}, ip)| == |Gone(before, m, ip)| + if b.creatorIP == ip then 1 else 0 {
            GoneOneMore(before, m, id, ip);
          }
          hide Gone;
          m := m - {id};
          if b.creatorIP != "" {
            creators := creators + [b.creatorIP];
          }
        }
      }
    }
  }

  /** The buckets of a creator that a later registry no longer has. */
  ghost function Gone(before: Reg, after: Reg, ip: string): set<Id> {
    set id | id in before && id !in after && before[id].creatorIP == ip
  }

  lemma GoneOneMore(before: Reg, m: Reg, id: Id, ip: string)
    requires id in m && id in before
    ensures |Gone(before, m - {id}, ip)| == |Gone(before, m, ip)| + if before[id].creatorIP == ip then 1 else 0
  {
    if before[id].creatorIP == ip {
      assert Gone(before, m - {id}, ip) == Gone(before, m, ip) + {id};
    } else {
      assert Gone(before, m - {id}, ip) == Gone(before, m, ip);
    }
  }
}
