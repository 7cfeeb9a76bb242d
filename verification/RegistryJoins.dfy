/** Who is seated by a join, and what becomes of the seats. */
module RegistryJoins {
  import opened Wrappers
  import opened Registries
  import opened RegistrySafety

  /** A seat of this token that is connected, or dropped no longer than the reclaim window ago. */
  predicate Mine(cfg: Config, seat: Option<Peer>, token: string, now: int) {
    && token != "" && seat.Some? && seat.value.token == token
    && (seat.value.connected || (seat.value.droppedAt.Some? && now <= seat.value.droppedAt.value + cfg.reclaimTTL))
  }

  /** ... which this device may take: nobody's session is on it, or its own. */
  predicate Yields(cfg: Config, seat: Option<Peer>, token: string, sid: string, now: int) {
    Mine(cfg, seat, token, now) && (seat.value.session == "" || seat.value.session == sid)
  }

  /** ... which another device of the same token has. */
  predicate Refuses(cfg: Config, seat: Option<Peer>, token: string, sid: string, now: int) {
    Mine(cfg, seat, token, now) && sid != "" && seat.value.session != "" && seat.value.session != sid
  }

  predicate Decides(cfg: Config, seat: Option<Peer>, token: string, sid: string, now: int) {
    Yields(cfg, seat, token, sid, now) || Refuses(cfg, seat, token, sid, now)
  }

  /** Nobody sits there, or someone whose reclaim window is over. */
  predicate Vacant(cfg: Config, seat: Option<Peer>, now: int) {
    seat.Some? ==> !seat.value.connected
                   && (seat.value.droppedAt.Some? ==> now > seat.value.droppedAt.value + cfg.reclaimTTL)
  }

  /** The first seat of the token that decides is the device's again: still its token, its session
      adopted if it names one, and its drop mark gone. The other seat is as it was, unless it is an expired
      one of the same token, looked at before, which is cleared. */
  lemma JoinReclaims(cfg: Config, seats: Seats, token: string, sid: string, ip: string, conn: Conn, now: int, k: nat)
    requires k < 2 && Yields(cfg, seats[k], token, sid, now)
    requires k == 1 ==> !Decides(cfg, seats[0], token, sid, now)
    ensures var r := JoinSeats(cfg, seats, token, sid, ip, conn, now);
            var session := if sid != "" then sid else seats[k].value.session;
            && r.1 == Joined(k, false)
            && r.0[k] == Some(Peer(Some(conn), token, session, now, ip, None, true))
            && (r.0[1 - k] == seats[1 - k]
                || (k == 1 && seats[0].value.token == token && Vacant(cfg, seats[0], now) && r.0[0] == None))
  {
    var s0 := ScanSeat(cfg, seats, 0, token, sid, now);
    if k == 0 {
      assert s0 == Taken(0, seats);
      assert ScanFrom(cfg, seats, 0, token, sid, now) == s0;
    } else {
      assert s0.Go? && s0.seats[1] == seats[1];
      assert ScanSeat(cfg, s0.seats, 1, token, sid, now) == Taken(1, s0.seats);
      assert ScanFrom(cfg, s0.seats, 1, token, sid, now) == Taken(1, s0.seats);
      assert ScanFrom(cfg, seats, 0, token, sid, now) == Taken(1, s0.seats);
    }
  }

  /** A seat of the token that another device has turns the join away. */
  lemma JoinRefuses(cfg: Config, seats: Seats, token: string, sid: string, ip: string, conn: Conn, now: int, k: nat)
    requires k < 2 && Refuses(cfg, seats[k], token, sid, now)
    requires k == 1 ==> !Decides(cfg, seats[0], token, sid, now)
    ensures JoinSeats(cfg, seats, token, sid, ip, conn, now).1 == Full
  {
    var s0 := ScanSeat(cfg, seats, 0, token, sid, now);
    if k == 0 {
      assert s0 == Refused(seats);
      assert ScanFrom(cfg, seats, 0, token, sid, now) == s0;
    } else {
      assert s0.Go? && s0.seats[1] == seats[1];
      assert ScanSeat(cfg, s0.seats, 1, token, sid, now) == Refused(s0.seats);
      assert ScanFrom(cfg, s0.seats, 1, token, sid, now) == Refused(s0.seats);
    }
  }

  /** Where no seat decides, the scan clears at most vacant seats. */
  lemma ScanGoesOn(cfg: Config, seats: Seats, token: string, sid: string, now: int)
    requires token != "" && !Decides(cfg, seats[0], token, sid, now) && !Decides(cfg, seats[1], token, sid, now)
    ensures var s := ScanFrom(cfg, seats, 0, token, sid, now);
            s.Go? && forall j :: 0 <= j < 2 ==> s.seats[j] == seats[j] || (s.seats[j] == None && Vacant(cfg, seats[j], now))
  {
    var s0 := ScanSeat(cfg, seats, 0, token, sid, now);
    assert s0.Go? && s0.seats[1] == seats[1];
    var s1 := ScanSeat(cfg, s0.seats, 1, token, sid, now);
    assert s1.Go? && s1.seats[0] == s0.seats[0];
    assert ScanFrom(cfg, s1.seats, 2, token, sid, now) == Go(s1.seats);
    assert ScanFrom(cfg, s0.seats, 1, token, sid, now) == Go(s1.seats);
    assert ScanFrom(cfg, seats, 0, token, sid, now) == Go(s1.seats);
  }

  /** Where no seat decides, the newcomer gets the first vacant seat, and none only if there is none. */
  lemma JoinTakesVacant(cfg: Config, seats: Seats, token: string, sid: string, ip: string, conn: Conn, now: int)
    requires !Decides(cfg, seats[0], token, sid, now) && !Decides(cfg, seats[1], token, sid, now)
    ensures var r := JoinSeats(cfg, seats, token, sid, ip, conn, now);
            var newcomer := Some(Peer(Some(conn), token, sid, now, ip, None, true));
            if Vacant(cfg, seats[0], now) then r.1 == Joined(0, false) && r.0[0] == newcomer
            else if Vacant(cfg, seats[1], now) then r.1 == Joined(1, false) && r.0 == [seats[0], newcomer]
            else r == (seats, Full)
  {
    if token != "" { ScanGoesOn(cfg, seats, token, sid, now); }
    hide ScanFrom, Decides;
    var s: Seats := if token == "" then seats else ScanFrom(cfg, seats, 0, token, sid, now).seats;
    assert forall j :: 0 <= j < 2 ==> (Free(cfg, s[j], now) <==> Vacant(cfg, seats[j], now));
    assert FirstFree(cfg, s, 2, now) == 2;
    assert FirstFree(cfg, s, 1, now) == if Vacant(cfg, seats[1], now) then 1 else 2;
    assert FirstFree(cfg, s, 0, now) == if Vacant(cfg, seats[0], now) then 0 else FirstFree(cfg, s, 1, now);
  }

  /** A join to an existing bucket is turned away exactly when another device has a seat of its token and
      no earlier seat is its own, or no seat is its own and neither is vacant. */
  lemma FullIff(cfg: Config, seats: Seats, token: string, sid: string, ip: string, conn: Conn, now: int)
    ensures JoinSeats(cfg, seats, token, sid, ip, conn, now).1.Full? <==>
            || Refuses(cfg, seats[0], token, sid, now)
            || (Refuses(cfg, seats[1], token, sid, now) && !Yields(cfg, seats[0], token, sid, now))
            || (!Yields(cfg, seats[0], token, sid, now) && !Yields(cfg, seats[1], token, sid, now)
                && !Vacant(cfg, seats[0], now) && !Vacant(cfg, seats[1], now))
  {
    assert forall j :: 0 <= j < 2 ==> !(Yields(cfg, seats[j], token, sid, now) && Refuses(cfg, seats[j], token, sid, now));
    if Yields(cfg, seats[0], token, sid, now) {
      JoinReclaims(cfg, seats, token, sid, ip, conn, now, 0);
    } else if Refuses(cfg, seats[0], token, sid, now) {
      JoinRefuses(cfg, seats, token, sid, ip, conn, now, 0);
    } else if Yields(cfg, seats[1], token, sid, now) {
      JoinReclaims(cfg, seats, token, sid, ip, conn, now, 1);
    } else if Refuses(cfg, seats[1], token, sid, now) {
      JoinRefuses(cfg, seats, token, sid, ip, conn, now, 1);
    } else {
      JoinTakesVacant(cfg, seats, token, sid, ip, conn, now);
    }
    hide JoinSeats, Yields, Refuses, Vacant;
  }

  /** The first join of a bucket creates it, charged to its address. */
  lemma FirstJoinCreates(cfg: Config, reg: Reg, id: Id, token: string, sid: string, ip: string, conn: Conn, now: int)
    requires id !in reg
    ensures var r := JoinStep(cfg, reg, id, token, sid, ip, conn, now);
            && r.1 == Joined(0, true)
            && r.0 == reg[id := Bucket([Some(Peer(Some(conn), token, sid, now, ip, None, true)), None], now, now, ip)]
  {
  }

  /** What the reclaim window is for: in every run, a device that comes back with its token and session
      while its seat is not due is in that seat again, whatever others did in between. */
  lemma DeviceReturns(cfg: Config, ops: Ops, m: nat, n: nat, id: Id, slot: nat, sid: string, ip: string, conn: Conn, now: int)
    requires cfg.idleTTL > cfg.reclaimTTL >= 0 && Monotone(ops) && m <= n <= |ops|
    requires NeverDue(cfg, ops, m, n, id, slot) && InTime(cfg, Run(cfg, ops[..n]), id, slot, now)
    requires var p := Run(cfg, ops[..m])[id].seats[slot].value;
             p.token != "" && p.session != "" && sid == p.session
    requires var s := Run(cfg, ops[..n]);
             id in s && Occupied(s[id], 1 - slot) ==>
               s[id].seats[1 - slot].value.token != Run(cfg, ops[..m])[id].seats[slot].value.token
    ensures var token := Run(cfg, ops[..m])[id].seats[slot].value.token;
            var r := JoinStep(cfg, Run(cfg, ops[..n]), id, token, sid, ip, conn, now);
            && r.1 == Joined(slot, false)
            && r.0[id].seats[slot] == Some(Peer(Some(conn), token, sid, now, ip, None, true))
  {
    RunKeepsSeat(cfg, ops, m, n, id, slot);
    var before, s := Run(cfg, ops[..m]), Run(cfg, ops[..n]);
    hide Run, NeverDue, Monotone;
    var token := before[id].seats[slot].value.token;
    assert Yields(cfg, s[id].seats[slot], token, sid, now);
    assert !Decides(cfg, s[id].seats[1 - slot], token, sid, now);
    JoinReclaims(cfg, s[id].seats, token, sid, ip, conn, now, slot);
  }

  // ---- Leaving, traffic and the idle sweep --------------------------------

  /** A leave marks its seat and nothing else. */
  lemma LeaveMarks(cfg: Config, reg: Reg, id: Id, slot: int, now: int)
    requires cfg.reclaimTTL >= 0 && id in reg && Occupied(reg[id], slot)
    ensures var p := reg[id].seats[slot].value;
            var left := Some(Peer(None, p.token, p.session, now, p.ip, Some(now), false));
            LeaveStep(cfg, reg, id, slot, now)
            == (reg[id := reg[id].(lastSeen := now, seats := reg[id].seats[slot := left])], false)
  {
    LeaveKeepsBucket(cfg, reg, id, slot, now);
  }

  /** A leave from a bucket or seat that is gone changes nothing, and reports a bucket gone that has nobody
      connected and nobody within the window. */
  lemma LeaveOfNobody(cfg: Config, reg: Reg, id: Id, slot: int, now: int)
    requires id in reg ==> !Occupied(reg[id], slot)
    ensures LeaveStep(cfg, reg, id, slot, now).0 == reg
    ensures LeaveStep(cfg, reg, id, slot, now).1 <==>
            id !in reg || forall k :: 0 <= k < 2 ==> Vacant(cfg, reg[id].seats[k], now)
  {
  }

  /** The idle sweep takes exactly the buckets with nobody connected whose seats are all vacant or which
      have been idle for the limit; traffic at some time puts the second case off by the limit. */
  lemma SweepTakesIff(cfg: Config, reg: Reg, id: Id, now: int, touched: int)
    requires id in reg
    ensures id !in SweepStep(cfg, reg, now) <==>
            || (forall k :: 0 <= k < 2 ==> Vacant(cfg, reg[id].seats[k], now))
            || (now - reg[id].lastSeen >= cfg.idleTTL
                && forall k :: 0 <= k < 2 && reg[id].seats[k].Some? ==> !reg[id].seats[k].value.connected)
    ensures id in SweepStep(cfg, reg, now) ==> SweepStep(cfg, reg, now)[id] == reg[id]
    ensures id in TouchStep(reg, id, touched) && TouchStep(reg, id, touched)[id].lastSeen == touched
    ensures forall k :: 0 <= k < 2 ==>
              (Vacant(cfg, TouchStep(reg, id, touched)[id].seats[k], now) <==> Vacant(cfg, reg[id].seats[k], now))
  {
  }
}
