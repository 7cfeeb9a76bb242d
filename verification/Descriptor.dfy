/** The poller descriptor of one relay connection (server/internal/relay/server.go): handleConn
    registers it while any number of dropPeer calls may tear the connection down. Each thread is
    a program counter, and a run interleaves their steps in any way. */
module Descriptors {
  import opened Wrappers

  /** What happens to the descriptor: Start is a call that takes time. */
  datatype Op = StartBegins | StartEnds | Stops | Closes

  /** Where handleConn is, from netpoll.HandleRead on. */
  datatype Registration = Opening | Opened | Checking | Starting | Unlocking(ok: bool) | MustClose | Finished

  /** Where a dropPeer call is. */
  datatype Drop = Entered | Won | Locked | Stopped | Releasing | Over

  /** Who called dropPeer: handleConn itself after a failure, or some other goroutine. */
  datatype Caller = FromRegistration | Other(n: nat)

  datatype Holder = ByRegistration | ByDrop(caller: Caller)

  /** `created` says whether there is a descriptor at all, `desc` whether the peer refers to it,
      and `winner` which dropPeer call has set `closed`. */
  datatype State = State(
    reg: Registration,
    drops: map<Caller, Drop>,
    mutex: Option<Holder>,
    closed: bool,
    winner: Option<Caller>,
    created: bool,
    desc: bool,
    trace: seq<Op>)

  const INITIAL := State(Opening, map[], None, false, None, false, false, [])

  datatype Event = Register(ok: bool) | Call(n: nat) | Advance(caller: Caller)

  /** handleConn's next step; `ok` is what HandleRead or Start reports. A thread that cannot
      take the lock stays where it is. */
  function RegisterStep(s: State, ok: bool): State {
    match s.reg
    case Opening => if ok then s.(reg := Opened, created := true) else Failed(s)
    case Opened => if s.mutex.None? then s.(reg := Checking, mutex := Some(ByRegistration)) else s
    case Checking =>
      if s.closed then s.(reg := MustClose, mutex := None)
      else s.(reg := Starting, desc := true, trace := s.trace + [StartBegins])
    case Starting => s.(reg := Unlocking(ok), trace := s.trace + [StartEnds])
    case Unlocking(ok) => if ok then s.(reg := Finished, mutex := None) else Failed(s.(mutex := None))
    case MustClose => s.(reg := Finished, trace := s.trace + [Closes])
    case Finished => s
  }

  /** handleConn gives up and drops the peer itself. */
  function Failed(s: State): State { s.(reg := Finished, drops := s.drops[FromRegistration := Entered]) }

  function DropStep(s: State, c: Caller): State
    requires c in s.drops
  {
    match s.drops[c]
    case Entered =>
      if s.closed then s.(drops := s.drops[c := Over])
      else s.(drops := s.drops[c := Won], closed := true, winner := Some(c))
    case Won => if s.mutex.None? then s.(drops := s.drops[c := Locked], mutex := Some(ByDrop(c))) else s
    case Locked =>
      if s.desc then s.(drops := s.drops[c := Stopped], trace := s.trace + [Stops])
      else s.(drops := s.drops[c := Releasing])
    case Stopped => s.(drops := s.drops[c := Releasing], desc := false, trace := s.trace + [Closes])
    case Releasing => s.(drops := s.drops[c := Over], mutex := None)
    case Over => s
  }

  function Step(s: State, e: Event): State {
    match e
    case Register(ok) => RegisterStep(s, ok)
    case Call(n) => if Other(n) in s.drops then s else s.(drops := s.drops[Other(n) := Entered])
    case Advance(c) => if c in s.drops then DropStep(s, c) else s
  }

  function Run(es: seq<Event>): State { if es == [] then INITIAL else Step(Run(es[..|es| - 1]), es[|es| - 1]) }

  // ---- The invariant ------------------------------------------------------

  predicate HoldsLock(d: Drop) { d == Locked || d == Stopped || d == Releasing }

  /** The lock is held by whoever is between taking and releasing it. */
  ghost predicate LockOk(s: State) {
    && (s.mutex == Some(ByRegistration) <==> s.reg == Checking || s.reg == Starting || s.reg.Unlocking?)
    && (forall c :: c in s.drops && HoldsLock(s.drops[c]) <==> s.mutex == Some(ByDrop(c)))
  }

  /** Only the call that set `closed` gets past its first test. */
  ghost predicate WinnerOk(s: State) {
    && (s.closed <==> s.winner.Some?)
    && (s.winner.Some? ==> s.winner.value in s.drops && s.drops[s.winner.value] != Entered)
    && (forall c :: c in s.drops && s.drops[c] != Entered && s.drops[c] != Over ==> s.winner == Some(c))
    && (FromRegistration in s.drops ==> s.reg == Finished)
  }

  /** How far the call that won has got; Entered if there is none. */
  function Winning(s: State): Drop {
    if s.winner.Some? && s.winner.value in s.drops then s.drops[s.winner.value] else Entered
  }

  /** What has happened to the descriptor, given where both threads are. */
  ghost predicate TraceOk(s: State) {
    match s.reg
    case Opening => !s.created && !s.desc && s.trace == [] && Winning(s) != Stopped
    case Opened => s.created && !s.desc && s.trace == [] && Winning(s) != Stopped
    case Checking => s.created && !s.desc && s.trace == [] && Winning(s) != Stopped
    case Starting => s.created && s.desc && s.trace == [StartBegins] && Waits(s)
    case Unlocking(_) => s.created && s.desc && s.trace == [StartBegins, StartEnds] && Waits(s)
    case MustClose => s.created && !s.desc && s.trace == [] && s.closed && Winning(s) != Stopped
    case Finished =>
      || (!s.created && !s.desc && s.trace == [] && Winning(s) != Stopped)
      || (s.created && !s.desc && s.trace == [Closes] && s.closed && Winning(s) != Stopped)
      || (s.created && s.desc && s.trace == [StartBegins, StartEnds] && (Waits(s) || Winning(s) == Locked))
      || (s.created && s.desc && s.trace == [StartBegins, StartEnds, Stops] && Winning(s) == Stopped)
      || (s.created && !s.desc && s.trace == [StartBegins, StartEnds, Stops, Closes]
          && (Winning(s) == Releasing || Winning(s) == Over))
  }

  /** The winning call, if any, has not had the lock yet. */
  predicate Waits(s: State) { Winning(s) == Entered || Winning(s) == Won }

  ghost predicate Inv(s: State) { LockOk(s) && WinnerOk(s) && TraceOk(s) }

  lemma RegisterKeeps(s: State, ok: bool)
    requires Inv(s)
    ensures Inv(RegisterStep(s, ok))
  {
  }

  lemma CallKeeps(s: State, n: nat)
    requires Inv(s)
    ensures Inv(Step(s, Call(n)))
  {
  }

  lemma DropKeepsLock(s: State, c: Caller)
    requires LockOk(s) && WinnerOk(s) && c in s.drops
    ensures LockOk(DropStep(s, c))
  {
  }

  lemma DropKeepsWinner(s: State, c: Caller)
    requires WinnerOk(s) && c in s.drops
    ensures WinnerOk(DropStep(s, c))
  {
  }

  lemma DropKeepsTrace(s: State, c: Caller)
    requires Inv(s) && c in s.drops
    ensures TraceOk(DropStep(s, c))
  {
  }

  lemma DropKeeps(s: State, c: Caller)
    requires Inv(s) && c in s.drops
    ensures Inv(DropStep(s, c))
  {
    DropKeepsLock(s, c);
    DropKeepsWinner(s, c);
    DropKeepsTrace(s, c);
    hide LockOk, WinnerOk, TraceOk, DropStep;
  }

  lemma {:induction false} RunKeeps(es: seq<Event>)
    ensures Inv(Run(es))
  {
    hide Inv, RegisterStep, DropStep;
    if es == [] {
      InitialOk();
    } else {
      var s, e := Run(es[..|es| - 1]), es[|es| - 1];
      RunKeeps(es[..|es| - 1]);
      match e
      case Register(ok) => RegisterKeeps(s, ok);
      case Call(n) => CallKeeps(s, n);
      case Advance(c) => if c in s.drops { DropKeeps(s, c); }
    }
  }

  lemma InitialOk()
    ensures Inv(INITIAL)
  {
  }

  /** When registration fails, at either call, it drops the peer itself. */
  lemma FailureDropsPeer(es: seq<Event>, ok: bool)
    requires Run(es).reg == Opening ==> !ok
    requires Run(es).reg == Opening || Run(es).reg == Unlocking(false)
    ensures var s, t := Run(es), Run(es + [Register(ok)]);
            && FromRegistration !in s.drops && t.reg == Finished && t.mutex != Some(ByRegistration)
            && FromRegistration in t.drops && t.drops[FromRegistration] == Entered
  {
    RunKeeps(es);
    assert (es + [Register(ok)])[..|es|] == es;
    hide LockOk, TraceOk;
  }

  // ---- Safety over every run ----------------------------------------------

  predicate Teardown(o: Op) { o == Stops || o == Closes }

  /** Start neither overlaps nor follows Stop or Close. */
  predicate StartAlone(t: seq<Op>) {
    && (forall i, j :: 0 <= i < j < |t| && Teardown(t[i]) ==> Teardown(t[j]))
    && (forall i :: 0 <= i < |t| - 1 && t[i] == StartBegins ==> t[i + 1] == StartEnds)
  }

  function Closings(t: seq<Op>): nat { if t == [] then 0 else (if t[0] == Closes then 1 else 0) + Closings(t[1..]) }

  lemma CountClosings()
    ensures Closings([]) == 0 && Closings([Closes]) == 1 && Closings([StartBegins]) == 0
    ensures Closings([StartBegins, StartEnds]) == 0 && Closings([StartBegins, StartEnds, Stops]) == 0
    ensures Closings([StartBegins, StartEnds, Stops, Closes]) == 1
  {
  }

  /** In every interleaving the poller is never asked to start a descriptor that is being or has
      been torn down, and no descriptor is closed twice. */
  lemma DescriptorSafe(es: seq<Event>)
    ensures StartAlone(Run(es).trace) && Closings(Run(es).trace) <= 1
  {
    RunKeeps(es);
    CountClosings();
    hide Run, Closings;
  }

  /** Once registration and the drop that won are both over, the descriptor has been closed
      exactly once if there ever was one, and the peer no longer refers to it. */
  lemma ClosedExactlyOnce(es: seq<Event>)
    requires var s := Run(es);
             s.reg == Finished && s.winner.Some? && s.winner.value in s.drops && s.drops[s.winner.value] == Over
    ensures var s := Run(es); Closings(s.trace) == (if s.created then 1 else 0) && !s.desc
  {
    RunKeeps(es);
    CountClosings();
    hide Run, Closings;
  }

  /** With registration over, the descriptor has been closed exactly when registration found the
      peer closed and did it itself, or the call that won is past its Close. */
  lemma ClosedIff(es: seq<Event>)
    requires Run(es).reg == Finished && Run(es).created
    ensures var s := Run(es);
            Closings(s.trace) == 1 <==> StartBegins !in s.trace || Winning(s) == Releasing || Winning(s) == Over
  {
    RunKeeps(es);
    CountClosings();
    hide Run, Closings, LockOk, WinnerOk;
  }

  /** Whatever the interleaving, once a dropPeer call that won, or one that lost, has returned and
      registration is over, the descriptor there was is closed. */
  ghost predicate ReturnMeansClosed(won: bool) {
    forall es, c ::
      var s := Run(es);
      s.reg == Finished && s.created && c in s.drops && s.drops[c] == Over && (s.winner == Some(c) <==> won)
      ==> Closings(s.trace) == 1
  }

  /** That a call has returned means the connection is torn down exactly for the call that won. */
  lemma ReturnMeansClosedIff(won: bool)
    ensures ReturnMeansClosed(won) <==> won
  {
    hide Run, Closings;
    if won {
      forall es, c | var s := Run(es);
                     s.reg == Finished && s.created && c in s.drops && s.drops[c] == Over && s.winner == Some(c)
        ensures Closings(Run(es).trace) == 1
      {
        ClosedExactlyOnce(es);
      }
    } else {
      LosingDropReturnsEarly();
      var s, n :| Reachable(s) && s.reg == Finished && s.created && Other(n) in s.drops
                  && s.drops[Other(n)] == Over && s.desc && Closes !in s.trace;
      var es :| Run(es) == s;
      if s.winner == Some(Other(n)) { ClosedExactlyOnce(es); }
      NotClosed(s.trace);
    }
  }

  lemma {:induction false} NotClosed(t: seq<Op>)
    requires Closes !in t
    ensures Closings(t) == 0
  {
    if t != [] { NotClosed(t[1..]); }
  }

  ghost predicate Reachable(s: State) { exists es :: Run(es) == s }

  lemma ReachStep(s: State, e: Event)
    requires Reachable(s)
    ensures Reachable(Step(s, e))
  {
    hide Step;
    var es :| Run(es) == s;
    assert (es + [e])[..|es|] == es;
    assert Run(es + [e]) == Step(s, e);
  }

  /** A drop that lost may return long before that: that a dropPeer call has returned does not
      mean the connection has been torn down. */
  lemma LosingDropReturnsEarly()
    ensures exists s, n ::
              && Reachable(s) && s.reg == Finished && s.created && Other(n) in s.drops
              && s.drops[Other(n)] == Over && s.desc && Closes !in s.trace
  {
    hide Reachable;
    Nowhere();
    ReachStep(INITIAL, Register(true));
    var s1 := State(Opened, map[], None, false, None, true, false, []);
    ReachStep(s1, Register(true));
    var s2 := s1.(reg := Checking, mutex := Some(ByRegistration));
    ReachStep(s2, Register(true));
    var s3 := s2.(reg := Starting, desc := true, trace := s2.trace + [StartBegins]);
    ReachStep(s3, Register(true));
    var s4 := s3.(reg := Unlocking(true), trace := s3.trace + [StartEnds]);
    ReachStep(s4, Register(true));
    var s5 := s4.(reg := Finished, mutex := None);
    TwoDrops(s5);
  }

  lemma Nowhere()
    ensures Reachable(INITIAL)
  {
    assert Run([]) == INITIAL;
  }

  lemma TwoDrops(s: State)
    requires Reachable(s) && s.reg == Finished && s.created && s.desc && !s.closed && s.drops == map[]
    requires Closes !in s.trace
    ensures exists t, n ::
              && Reachable(t) && t.reg == Finished && t.created && Other(n) in t.drops
              && t.drops[Other(n)] == Over && t.desc && Closes !in t.trace
  {
    hide Reachable;
    ReachStep(s, Call(0));
    var s1 := s.(drops := map[Other(0) := Entered]);
    ReachStep(s1, Call(1));
    var s2 := s1.(drops := s1.drops[Other(1) := Entered]);
    ReachStep(s2, Advance(Other(0)));
    var s3 := s2.(drops := s2.drops[Other(0) := Won], closed := true, winner := Some(Other(0)));
    ReachStep(s3, Advance(Other(1)));
    var s4 := s3.(drops := s3.drops[Other(1) := Over]);
    assert Reachable(s4) && s4.drops[Other(1)] == Over;
  }
}
