/** Seat safety over whole runs of the registry. */
module RegistrySafety {
  import opened Wrappers
  import opened Registries

  datatype Op =
    | Joins(id: Id, token: string, sid: string, ip: string, conn: Conn)
    | Leaves(id: Id, slot: int)
    | Sweeps
    | Touches(id: Id)

  type Ops = seq<(Op, int)>

  function Step(cfg: Config, reg: Reg, op: Op, now: int): Reg {
    match op
    case Joins(id, token, sid, ip, conn) => JoinStep(cfg, reg, id, token, sid, ip, conn, now).0
    case Leaves(id, slot) => LeaveStep(cfg, reg, id, slot, now).0
    case Sweeps => SweepStep(cfg, reg, now)
    case Touches(id) => TouchStep(reg, id, now)
  }

  function Run(cfg: Config, ops: Ops): Reg {
    if ops == [] then map[] else
      Step(cfg, Run(cfg, ops[..|ops| - 1]), ops[|ops| - 1].0, ops[|ops| - 1].1)
  }

  ghost predicate Monotone(ops: Ops) { forall j, k :: 0 <= j < k < |ops| ==> ops[j].1 <= ops[k].1 }

  /** A seat is either connected or stamped with the time it dropped, and the bucket has
      been seen no earlier than that. */
  ghost predicate SeatOk(s: Option<Peer>, seen: int) {
    s.Some? ==> (s.value.connected <==> s.value.droppedAt.None?) &&
                (s.value.droppedAt.Some? ==> s.value.droppedAt.value <= seen)
  }

  ghost predicate RegOk(reg: Reg, now: int) {
    forall id :: id in reg ==>
      reg[id].lastSeen <= now && SeatOk(reg[id].seats[0], reg[id].lastSeen) && SeatOk(reg[id].seats[1], reg[id].lastSeen)
  }

  /** The seat is connected, or dropped no longer than the reclaim window ago. */
  ghost predicate Protected(cfg: Config, reg: Reg, id: Id, slot: nat, now: int) {
    id in reg && Occupied(reg[id], slot) && SeatHeld(cfg, reg[id].seats[slot].value, now)
  }

  /** Bucket and seat are still there, under the same token; the session id changes only
      from empty. */
  ghost predicate Kept(before: Reg, after: Reg, id: Id, slot: nat)
    requires id in before && Occupied(before[id], slot)
  {
    && id in after && Occupied(after[id], slot)
    && var p, q := before[id].seats[slot].value, after[id].seats[slot].value;
       q.token == p.token && (q.session == p.session || p.session == "")
  }

  lemma ScanOk(cfg: Config, seats: Seats, i: nat, token: string, sid: string, now: int, seen: int)
    requires i < 2 && SeatOk(seats[0], seen) && SeatOk(seats[1], seen)
    ensures var s := ScanSeat(cfg, seats, i, token, sid, now).seats; SeatOk(s[0], seen) && SeatOk(s[1], seen)
  {
  }

  /** A join refreshes at most one seat and leaves the others well stamped. */
  lemma JoinSeatsOk(cfg: Config, seats: Seats, token: string, sid: string, ip: string, conn: Conn, now: int, seen: int)
    requires SeatOk(seats[0], seen) && SeatOk(seats[1], seen) && seen <= now
    ensures var s := JoinSeats(cfg, seats, token, sid, ip, conn, now).0; SeatOk(s[0], now) && SeatOk(s[1], now)
  {
    ScanAllOk(cfg, seats, 0, token, sid, now, seen);
    hide ScanFrom, Free, FirstFree;
  }

  lemma {:induction false} ScanAllOk(cfg: Config, seats: Seats, i: nat, token: string, sid: string, now: int, seen: int)
    requires i <= 2 && SeatOk(seats[0], seen) && SeatOk(seats[1], seen)
    ensures var s := ScanFrom(cfg, seats, i, token, sid, now).seats; SeatOk(s[0], seen) && SeatOk(s[1], seen)
    decreases 2 - i
  {
    if i < 2 {
      ScanOk(cfg, seats, i, token, sid, now, seen);
      hide ScanSeat, SeatOk;
      var s := ScanSeat(cfg, seats, i, token, sid, now);
      if s.Go? { ScanAllOk(cfg, s.seats, i + 1, token, sid, now, seen); }
    }
  }

  /** What a join does to a seat that is held: nothing, or a reclaim by its own token and a
      session id that matches. */
  lemma JoinSeatsRespectHeld(cfg: Config, seats: Seats, token: string, sid: string, ip: string, conn: Conn, now: int, k: nat)
    requires k < 2 && seats[k].Some? && SeatHeld(cfg, seats[k].value, now)
    ensures var s := JoinSeats(cfg, seats, token, sid, ip, conn, now).0;
            s[k] == seats[k] ||
            (token != "" && token == seats[k].value.token && SessionMatches(seats[k].value, sid) &&
             s[k] == Some(Reseat(seats[k].value, sid, ip, conn, now)))
  {
    var s0 := ScanSeat(cfg, seats, 0, token, sid, now);
    assert s0.seats[k] == seats[k];
    var s1 := ScanSeat(cfg, s0.seats, 1, token, sid, now);
    assert s1.seats[k] == seats[k];
    assert ScanFrom(cfg, s0.seats, 1, token, sid, now) == if s1.Go? then Go(s1.seats) else s1;
    assert s0.Taken? && s0.slot == k ==> token == seats[k].value.token && SessionMatches(seats[k].value, sid);
    assert s1.Taken? && s1.slot == k ==> token == seats[k].value.token && SessionMatches(seats[k].value, sid);
    hide ScanSeat;
  }

  lemma StepOk(cfg: Config, reg: Reg, op: Op, last: int, now: int)
    requires RegOk(reg, last) && last <= now
    ensures RegOk(Step(cfg, reg, op, now), now)
  {
    if op.Joins? && op.id in reg {
      JoinSeatsOk(cfg, reg[op.id].seats, op.token, op.sid, op.ip, op.conn, now, reg[op.id].lastSeen);
    }
    hide JoinSeats, ShouldDelete, Swept;
  }

  /** With an idle limit beyond the reclaim window no step harms a protected seat. */
  lemma StepKeepsSeat(cfg: Config, reg: Reg, op: Op, last: int, now: int, id: Id, slot: nat)
    requires cfg.idleTTL > cfg.reclaimTTL && RegOk(reg, last) && last <= now
    requires Protected(cfg, reg, id, slot, now) && cfg.reclaimTTL >= 0
    ensures Kept(reg, Step(cfg, reg, op, now), id, slot)
  {
    match op {
      case Joins(jd, token, sid, ip, conn) =>
        if jd == id { JoinSeatsRespectHeld(cfg, reg[id].seats, token, sid, ip, conn, now, slot); }
        hide JoinSeats;
      case Leaves(jd, s) => if jd == id && Occupied(reg[id], s) { LeaveKeepsBucket(cfg, reg, id, s, now); }
      case Sweeps => assert !Swept(cfg, reg[id], now);
      case Touches(_) =>
    }
  }

  /** Leave on an occupied seat never deletes the bucket: the seat just dropped is held. */
  lemma LeaveKeepsBucket(cfg: Config, reg: Reg, id: Id, slot: int, now: int)
    requires cfg.reclaimTTL >= 0 && id in reg && Occupied(reg[id], slot)
    ensures var r := LeaveStep(cfg, reg, id, slot, now);
            !r.1 && id in r.0 && r.0[id].seats == reg[id].seats[slot := Some(DropPeer(reg[id].seats[slot].value, now))]
  {
    var seats := reg[id].seats[slot := Some(DropPeer(reg[id].seats[slot].value, now))];
    assert Within(cfg, seats[slot].value, now);
  }

  lemma {:induction false} RunOk(cfg: Config, ops: Ops, now: int)
    requires Monotone(ops) && (ops != [] ==> ops[|ops| - 1].1 <= now)
    ensures RegOk(Run(cfg, ops), now)
    decreases |ops|
  {
    hide Step;
    if ops != [] {
      var k := |ops| - 1;
      RunOk(cfg, ops[..k], ops[k].1);
      StepOk(cfg, Run(cfg, ops[..k]), ops[k].0, ops[k].1, ops[k].1);
    }
  }

  /** A seat that is there is connected, or was dropped no longer than the reclaim window ago. */
  ghost predicate InTime(cfg: Config, reg: Reg, id: Id, slot: nat, now: int) {
    id in reg && Occupied(reg[id], slot) ==> SeatHeld(cfg, reg[id].seats[slot].value, now)
  }

  /** From a state in which the seat is there, it is never due: a condition on times alone. */
  ghost predicate NeverDue(cfg: Config, ops: Ops, m: nat, n: nat, id: Id, slot: nat)
    requires m <= n <= |ops|
  {
    && id in Run(cfg, ops[..m]) && Occupied(Run(cfg, ops[..m])[id], slot)
    && forall k :: m <= k < n ==> InTime(cfg, Run(cfg, ops[..k]), id, slot, ops[k].1)
  }

  lemma RunSnoc(cfg: Config, ops: Ops, n: nat)
    requires 0 < n <= |ops|
    ensures Run(cfg, ops[..n]) == Step(cfg, Run(cfg, ops[..n - 1]), ops[n - 1].0, ops[n - 1].1)
  {
    hide Step;
    assert ops[..n][..n - 1] == ops[..n - 1];
  }

  lemma KeptChain(a: Reg, b: Reg, c: Reg, id: Id, slot: nat)
    requires id in a && Occupied(a[id], slot) && Kept(a, b, id, slot) && Kept(b, c, id, slot)
    ensures Kept(a, c, id, slot)
  {
  }

  lemma KeptSelf(a: Reg, id: Id, slot: nat)
    requires id in a && Occupied(a[id], slot)
    ensures Kept(a, a, id, slot)
  {
  }

  lemma KeptIsProtected(cfg: Config, a: Reg, b: Reg, id: Id, slot: nat, now: int)
    requires id in a && Occupied(a[id], slot) && Kept(a, b, id, slot) && InTime(cfg, b, id, slot, now)
    ensures Protected(cfg, b, id, slot, now)
  {
  }

  /** While a seat is not due, the whole run keeps it, its token and its device session. */
  lemma {:induction false} RunKeepsSeat(cfg: Config, ops: Ops, m: nat, n: nat, id: Id, slot: nat)
    requires cfg.idleTTL > cfg.reclaimTTL >= 0 && Monotone(ops) && m <= n <= |ops|
    requires NeverDue(cfg, ops, m, n, id, slot)
    ensures Kept(Run(cfg, ops[..m]), Run(cfg, ops[..n]), id, slot)
    decreases n - m
  {
    hide Step, Run, Kept, RegOk, Protected, InTime;
    if m < n {
      var op := ops[n - 1];
      var before := Run(cfg, ops[..n - 1]);
      RunKeepsSeat(cfg, ops, m, n - 1, id, slot);
      RunOk(cfg, ops[..n - 1], op.1);
      KeptIsProtected(cfg, Run(cfg, ops[..m]), before, id, slot, op.1);
      StepKeepsSeat(cfg, before, op.0, op.1, op.1, id, slot);
      RunSnoc(cfg, ops, n);
      KeptChain(Run(cfg, ops[..m]), before, Run(cfg, ops[..n]), id, slot);
    } else {
      KeptSelf(Run(cfg, ops[..m]), id, slot);
    }
  }

  /** What the reclaim window promises: no run harms a seat within it. */
  ghost predicate SeatsAreSafe(cfg: Config) {
    forall ops: Ops, m: nat, n: nat, id: Id, slot: nat ::
      Monotone(ops) && m <= n <= |ops| && NeverDue(cfg, ops, m, n, id, slot)
      ==> Kept(Run(cfg, ops[..m]), Run(cfg, ops[..n]), id, slot)
  }

  /** Join, leave, and an idle sweep as soon as it is allowed. */
  function EarlySweep(cfg: Config): Ops {
    [(Joins("line", "t", "", "ip", 0), 0), (Leaves("line", 0), 0), (Sweeps, if cfg.idleTTL < 0 then 0 else cfg.idleTTL)]
  }

  lemma Joined1(cfg: Config)
    ensures Run(cfg, EarlySweep(cfg)[..1]) == map["line" := Bucket([Some(NewPeer("t", "", "ip", 0, 0)), None], 0, 0, "ip")]
  {
    RunSnoc(cfg, EarlySweep(cfg), 1);
    assert EarlySweep(cfg)[..0] == [];
  }

  /** With an idle limit inside the reclaim window the sweeper takes a seat that is held. */
  lemma EarlySweepHarms(cfg: Config)
    requires cfg.idleTTL <= cfg.reclaimTTL && 0 <= cfg.reclaimTTL
    ensures var ops := EarlySweep(cfg);
            Monotone(ops) && NeverDue(cfg, ops, 1, 3, "line", 0) && "line" !in Run(cfg, ops[..3])
  {
    var ops := EarlySweep(cfg);
    Joined1(cfg);
    RunSnoc(cfg, ops, 2);
    RunSnoc(cfg, ops, 3);
    var r1 := Run(cfg, ops[..1]);
    LeaveKeepsBucket(cfg, r1, "line", 0, 0);
    var r2 := Run(cfg, ops[..2]);
    assert r2 == LeaveStep(cfg, r1, "line", 0, 0).0;
    assert Swept(cfg, r2["line"], ops[2].1);
    hide Run;
  }

  /** With a negative reclaim window the leave that drops the last seat takes it. */
  lemma NoWindowHarms(cfg: Config)
    requires cfg.reclaimTTL < 0
    ensures var ops := EarlySweep(cfg);
            Monotone(ops) && NeverDue(cfg, ops, 1, 2, "line", 0) && "line" !in Run(cfg, ops[..2])
  {
    var ops := EarlySweep(cfg);
    Joined1(cfg);
    RunSnoc(cfg, ops, 2);
    hide Run;
  }

  /** The exact condition on the two limits. */
  lemma SeatsAreSafeIff(cfg: Config)
    ensures SeatsAreSafe(cfg) <==> 0 <= cfg.reclaimTTL < cfg.idleTTL
  {
    var ops := EarlySweep(cfg);
    if 0 <= cfg.reclaimTTL < cfg.idleTTL {
      forall ops: Ops, m: nat, n: nat, id: Id, slot: nat
        | Monotone(ops) && m <= n <= |ops| && NeverDue(cfg, ops, m, n, id, slot)
        ensures Kept(Run(cfg, ops[..m]), Run(cfg, ops[..n]), id, slot)
      {
        RunKeepsSeat(cfg, ops, m, n, id, slot);
      }
    } else if cfg.reclaimTTL < 0 {
      NoWindowHarms(cfg);
      assert !Kept(Run(cfg, ops[..1]), Run(cfg, ops[..2]), "line", 0);
    } else {
      EarlySweepHarms(cfg);
      assert !Kept(Run(cfg, ops[..1]), Run(cfg, ops[..3]), "line", 0);
    }
  }
}
