/** One peer's send queue and its lazily started writer (server/internal/relay/server.go): any
    number of Enqueue calls and writeLoop goroutines, their steps interleaved in any way. */
module Writers {
  import opened Wrappers
  import opened Chunking

  datatype Outbound = Outbound(data: Bytes, opCode: nat)

  const QUEUE_CAP: nat := 64

  /** Where writeLoop is: at the outer receive, writing what it received, at the inner receive,
      writing what it received there, at the emptiness test, about to lower the flag. */
  datatype Loop = Head | Writing(frame: Outbound) | Drain | Draining(frame: Outbound) | Testing | Ending

  /** A goroutine: an Enqueue call about to offer its frame, or about to see to a writer, a
      writeLoop not yet scheduled, one that runs, or nothing more to do. */
  datatype Thread = Offering(frame: Outbound) | Ensuring | Spawned | Looping(at: Loop) | Gone

  /** `queue` is the channel and `writing` the flag; `accepted` and `written` are the frames
      that went into the channel and onto the connection, in order. */
  datatype State = State(
    queue: seq<Outbound>,
    writing: bool,
    threads: map<nat, Thread>,
    closed: bool,
    failed: bool,
    accepted: seq<Outbound>,
    written: seq<Outbound>)

  const INITIAL := State([], false, map[], false, false, [], [])

  datatype Event = Enqueue(t: nat, frame: Outbound) | Advance(t: nat, ok: bool) | Close

  function At(s: State, t: nat, th: Thread): State { s.(threads := s.threads[t := th]) }

  /** A received frame leaves the queue with the loop. */
  function Received(s: State, t: nat, loop: Loop): State
    requires s.queue != []
  {
    At(s.(queue := s.queue[1..]), t, Looping(loop))
  }

  /** The write of a frame: an error drops the peer and ends the loop. */
  function Wrote(s: State, t: nat, frame: Outbound, ok: bool): State {
    if ok then At(s.(written := s.written + [frame]), t, Looping(Drain))
    else At(s.(failed := true, closed := true), t, Looping(Ending))
  }

  function LoopStep(s: State, t: nat, at: Loop, ok: bool): State {
    match at
    case Head => if s.queue != [] then Received(s, t, Writing(s.queue[0])) else At(s, t, Looping(Ending))
    case Writing(f) => Wrote(s, t, f, ok)
    case Drain => if s.queue != [] then Received(s, t, Draining(s.queue[0])) else At(s, t, Looping(Testing))
    case Draining(f) => Wrote(s, t, f, ok)
    case Testing => At(s, t, Looping(if s.queue == [] then Ending else Head))
    case Ending => At(s.(writing := false), t, Gone)
  }

  function ThreadStep(s: State, t: nat, ok: bool): State
    requires t in s.threads
  {
    match s.threads[t]
    case Offering(f) =>
      if |s.queue| < QUEUE_CAP then At(s.(queue := s.queue + [f], accepted := s.accepted + [f]), t, Ensuring)
      else At(s, t, Gone)
    case Ensuring => if s.writing then At(s, t, Gone) else At(s.(writing := true), t, Spawned)
    case Spawned => At(s, t, Looping(Head))
    case Looping(at) => LoopStep(s, t, at, ok)
    case Gone => s
  }

  function Step(s: State, e: Event): State {
    match e
    case Enqueue(t, f) => if s.closed || t in s.threads then s else At(s, t, Offering(f))
    case Advance(t, ok) => if t in s.threads then ThreadStep(s, t, ok) else s
    case Close => s.(closed := true)
  }

  function Run(es: seq<Event>): State { if es == [] then INITIAL else Step(Run(es[..|es| - 1]), es[|es| - 1]) }

  // ---- The invariant ------------------------------------------------------

  /** A writeLoop pending or running. */
  predicate Writer(th: Thread) { th.Spawned? || th.Looping? }

  predicate WriterAt(s: State, t: nat) { t in s.threads && Writer(s.threads[t]) }

  /** The frame a goroutine has received and not yet written. */
  function InHand(th: Thread): seq<Outbound> {
    if th.Looping? && (th.at.Writing? || th.at.Draining?) then [th.at.frame] else []
  }

  ghost predicate OneWriter(s: State) {
    && (forall t, u :: WriterAt(s, t) && WriterAt(s, u) ==> t == u)
    && (s.writing <==> exists t :: WriterAt(s, t))
  }

  ghost predicate Conserved(s: State) {
    && (forall t :: WriterAt(s, t) ==> s.accepted == s.written + InHand(s.threads[t]) + s.queue)
    && ((forall t :: !WriterAt(s, t)) ==> s.accepted == s.written + s.queue)
  }

  ghost predicate Inv(s: State) { OneWriter(s) && |s.queue| <= QUEUE_CAP && (!s.failed ==> Conserved(s)) }

  /** A step of one goroutine leaves the others where they are. */
  lemma OtherThreads(s: State, s': State, t: nat)
    requires s'.threads.Keys == s.threads.Keys && forall u :: u in s.threads && u != t ==> s'.threads[u] == s.threads[u]
    ensures forall u :: u != t ==> (WriterAt(s', u) <==> WriterAt(s, u))
  {
  }

  lemma SameWriters(s: State, s': State)
    requires OneWriter(s) && s'.writing == s.writing && forall u :: WriterAt(s', u) <==> WriterAt(s, u)
    ensures OneWriter(s')
  {
  }

  /** A writer is made only when the flag was down, and it puts it up. */
  lemma NewWriter(s: State, t: nat)
    requires OneWriter(s) && t in s.threads && s.threads[t].Ensuring? && !s.writing
    ensures OneWriter(ThreadStep(s, t, true))
  {
    var s' := ThreadStep(s, t, true);
    OtherThreads(s, s', t);
    assert WriterAt(s', t);
    hide WriterAt;
  }

  lemma WriterEnds(s: State, t: nat)
    requires OneWriter(s) && t in s.threads && s.threads[t] == Looping(Ending)
    ensures OneWriter(ThreadStep(s, t, true))
  {
    var s' := ThreadStep(s, t, true);
    OtherThreads(s, s', t);
    assert WriterAt(s, t) && !WriterAt(s', t);
    hide WriterAt;
  }

  /** The steps that make or end no writer. */
  predicate Ordinary(s: State, t: nat)
    requires t in s.threads
  {
    !(s.threads[t].Ensuring? && !s.writing) && s.threads[t] != Looping(Ending)
  }

  lemma LoopFrame(s: State, t: nat, at: Loop, ok: bool)
    requires t in s.threads && s.threads[t] == Looping(at)
    ensures var s' := LoopStep(s, t, at, ok);
            && s'.accepted == s.accepted && s'.threads.Keys == s.threads.Keys
            && (s'.writing <==> s.writing && !at.Ending?)
            && (s'.failed <==> s.failed || ((at.Writing? || at.Draining?) && !ok))
            && (if at.Ending? then s'.threads[t].Gone? else s'.threads[t].Looping?)
            && forall u :: u in s.threads && u != t ==> s'.threads[u] == s.threads[u]
  {
  }

  lemma OrdinaryFrame(s: State, t: nat, ok: bool)
    requires t in s.threads && Ordinary(s, t)
    ensures var s' := ThreadStep(s, t, ok);
            && s'.writing == s.writing && s'.threads.Keys == s.threads.Keys
            && (Writer(s'.threads[t]) <==> Writer(s.threads[t]))
            && forall u :: u in s.threads && u != t ==> s'.threads[u] == s.threads[u]
  {
    if s.threads[t].Looping? {
      LoopFrame(s, t, s.threads[t].at, ok);
      hide LoopStep;
    }
  }

  lemma ThreadKeepsOne(s: State, t: nat, ok: bool)
    requires OneWriter(s) && t in s.threads
    ensures OneWriter(ThreadStep(s, t, ok))
  {
    hide OneWriter;
    if s.threads[t].Ensuring? && !s.writing {
      NewWriter(s, t);
    } else if s.threads[t] == Looping(Ending) {
      WriterEnds(s, t);
    } else {
      OrdinaryFrame(s, t, ok);
      OtherThreads(s, ThreadStep(s, t, ok), t);
      hide ThreadStep;
      SameWriters(s, ThreadStep(s, t, ok));
    }
  }

  lemma StepKeepsOne(s: State, e: Event)
    requires OneWriter(s)
    ensures OneWriter(Step(s, e))
  {
    hide OneWriter, ThreadStep;
    if e.Advance? && e.t in s.threads {
      ThreadKeepsOne(s, e.t, e.ok);
    } else {
      SameWriters(s, Step(s, e));
    }
  }

  lemma EnqueueConserves(s: State, t: nat)
    requires t in s.threads && (s.threads[t].Offering? || s.threads[t].Ensuring? || s.threads[t].Spawned?)
    requires OneWriter(s) && Conserved(s)
    ensures Conserved(ThreadStep(s, t, true))
  {
    var s' := ThreadStep(s, t, true);
    OtherThreads(s, s', t);
    if s.threads[t].Offering? && |s.queue| < QUEUE_CAP {
      var f := s.threads[t].frame;
      assert forall h: seq<Outbound> :: s.written + h + (s.queue + [f]) == s.written + h + s.queue + [f];
      assert s.written + (s.queue + [f]) == s.written + s.queue + [f];
    }
    if s.threads[t].Ensuring? && !s.writing { assert s.written + [] + s.queue == s.written + s.queue; }
  }

  /** What a loop has written, holds and still finds queued is the same before and after a step. */
  lemma LoopBalance(s: State, t: nat, at: Loop, ok: bool)
    requires t in s.threads && (at.Writing? || at.Draining? ==> ok)
    ensures var s' := LoopStep(s, t, at, ok);
            s'.written + InHand(s'.threads[t]) + s'.queue == s.written + InHand(Looping(at)) + s.queue
  {
    assert s.written + [] == s.written;
    match at
    case Head => Handed(s);
    case Drain => Handed(s);
    case Writing(f) => assert s.written + [f] + [] == s.written + [f];
    case Draining(f) => assert s.written + [f] + [] == s.written + [f];
    case _ =>
  }

  lemma Handed(s: State)
    ensures s.queue != [] ==> s.written + [s.queue[0]] + s.queue[1..] == s.written + [] + s.queue
  {
    if s.queue != [] { assert s.queue == [s.queue[0]] + s.queue[1..]; }
  }

  lemma LoopConserves(s: State, t: nat, ok: bool)
    requires t in s.threads && s.threads[t].Looping? && OneWriter(s) && !s.failed && Conserved(s)
    requires !ThreadStep(s, t, ok).failed
    ensures Conserved(ThreadStep(s, t, ok))
  {
    var at, s' := s.threads[t].at, ThreadStep(s, t, ok);
    LoopFrame(s, t, at, ok);
    LoopBalance(s, t, at, ok);
    OtherThreads(s, s', t);
    assert WriterAt(s, t);
    assert forall u :: u != t ==> !WriterAt(s', u);
    assert s'.accepted == s'.written + InHand(s'.threads[t]) + s'.queue;
    hide LoopStep;
    assert s'.threads[t].Gone? ==> s'.written + InHand(s'.threads[t]) == s'.written;
    assert s'.threads[t].Looping? ==> WriterAt(s', t);
  }

  lemma FailedStays(s: State, t: nat, ok: bool)
    requires t in s.threads
    ensures s.failed ==> ThreadStep(s, t, ok).failed
  {
  }

  lemma StepKeeps(s: State, e: Event)
    requires Inv(s)
    ensures Inv(Step(s, e))
  {
    StepKeepsOne(s, e);
    match e
    case Enqueue(t, f) =>
      assert forall u :: WriterAt(Step(s, e), u) <==> WriterAt(s, u);
      hide OneWriter;
    case Close =>
      assert forall u :: WriterAt(Step(s, e), u) <==> WriterAt(s, u);
      hide OneWriter;
    case Advance(t, ok) =>
      if t in s.threads && !Step(s, e).failed {
        FailedStays(s, t, ok);
        if s.threads[t].Looping? { LoopConserves(s, t, ok); }
        if s.threads[t].Offering? || s.threads[t].Ensuring? || s.threads[t].Spawned? { EnqueueConserves(s, t); }
      }
      hide OneWriter, Conserved;
  }

  lemma InitialOk()
    ensures Inv(INITIAL)
  {
  }

  lemma {:induction false} RunKeeps(es: seq<Event>)
    ensures Inv(Run(es))
  {
    hide Inv, Step;
    if es == [] { InitialOk(); } else {
      RunKeeps(es[..|es| - 1]);
      StepKeeps(Run(es[..|es| - 1]), es[|es| - 1]);
    }
  }

  // ---- Over every run -----------------------------------------------------

  /** At most one writeLoop is pending or running per peer. */
  lemma AtMostOneWriter(es: seq<Event>, t: nat, u: nat)
    requires WriterAt(Run(es), t) && WriterAt(Run(es), u)
    ensures t == u
  {
    RunKeeps(es);
  }

  /** Until the first write error the accepted frames are, in order, those written, the one in
      hand and those queued: none is lost, repeated or overtaken. */
  lemma FramesConserved(es: seq<Event>) returns (hand: seq<Outbound>)
    requires !Run(es).failed
    ensures Run(es).accepted == Run(es).written + hand + Run(es).queue
    ensures |hand| <= 1 && (hand != [] ==> exists t :: WriterAt(Run(es), t) && InHand(Run(es).threads[t]) == hand)
    ensures |Run(es).queue| <= QUEUE_CAP
  {
    RunKeeps(es);
    var s := Run(es);
    if t :| WriterAt(s, t) {
      hand := InHand(s.threads[t]);
    } else {
      hand := [];
      assert s.written + [] + s.queue == s.written + s.queue;
    }
  }

  ghost predicate Reachable(s: State) { exists es :: Run(es) == s }

  lemma ReachStep(s: State, e: Event)
    requires Reachable(s)
    ensures Reachable(Step(s, e))
  {
    hide Step;
    var es :| Run(es) == s;
    assert (es + [e])[..|es|] == es;
    assert Run(es + [e]) == Step(s, e);
  }

  // ---- What a writer does left to itself ----------------------------------

  /** The loop of goroutine t takes n steps, all its writes succeeding. */
  ghost function Alone(s: State, t: nat, n: nat): State {
    if n == 0 then s else Step(Alone(s, t, n - 1), Advance(t, true))
  }

  lemma {:induction false} AloneAgain(s: State, t: nat, n: nat)
    ensures Alone(s, t, n + 1) == Alone(Step(s, Advance(t, true)), t, n)
  {
    hide Step;
    if n > 0 { AloneAgain(s, t, n - 1); }
  }

  /** It has written what it held and all that was queued, in order, and is gone with the flag down. */
  ghost predicate DrainedBy(s: State, t: nat, r: State) {
    && r.queue == [] && !r.writing && !r.failed && r.accepted == s.accepted && r.threads == s.threads[t := Gone]
    && t in s.threads && r.written == s.written + InHand(s.threads[t]) + s.queue
  }

  /** How far a loop is from its end. */
  function Distance(s: State, at: Loop): nat {
    match at
    case Head => 2 * |s.queue| + 5
    case Writing(_) => 2 * |s.queue| + 4
    case Drain => 2 * |s.queue| + 3
    case Draining(_) => 2 * |s.queue| + 4
    case Testing => if s.queue == [] then 2 else 2 * |s.queue| + 6
    case Ending => 1
  }

  /** A writer left to itself drains the queue: unless it is already about to lower the flag over frames that
      are queued, a number of its own steps writes everything, in order, and ends it. */
  lemma {:induction false} WriterDrains(s: State, t: nat) returns (n: nat)
    requires t in s.threads && s.threads[t].Looping? && !s.failed && (s.threads[t].at.Ending? ==> s.queue == [])
    ensures DrainedBy(s, t, Alone(s, t, n))
    decreases Distance(s, s.threads[t].at)
  {
    var s1 := Step(s, Advance(t, true));
    var at := s.threads[t].at;
    if at.Ending? {
      n := 1;
      EndsDrained(s, t);
    } else {
      LoopBalance(s, t, at, true);
      LoopMoves(s, t, at);
      assert s1 == LoopStep(s, t, at, true);
      hide Step, LoopStep, Alone, DrainedBy, Distance;
      var m := WriterDrains(s1, t);
      n := m + 1;
      AloneAgain(s, t, m);
      DrainedBefore(s, s1, t, Alone(s1, t, m));
    }
  }

  lemma EndsDrained(s: State, t: nat)
    requires t in s.threads && s.threads[t] == Looping(Ending) && !s.failed && s.queue == []
    ensures DrainedBy(s, t, Alone(s, t, 1))
  {
    assert Alone(s, t, 0) == s && Alone(s, t, 1) == Step(s, Advance(t, true));
    assert s.written + [] + [] == s.written;
  }

  lemma DrainedBefore(s: State, s1: State, t: nat, r: State)
    requires t in s.threads && t in s1.threads && s1.threads == s.threads[t := s1.threads[t]] && s1.accepted == s.accepted
    requires s1.written + InHand(s1.threads[t]) + s1.queue == s.written + InHand(s.threads[t]) + s.queue
    requires DrainedBy(s1, t, r)
    ensures DrainedBy(s, t, r)
  {
    hide InHand;
    assert s1.threads[t := Gone] == s.threads[t := Gone];
  }

  lemma LoopMoves(s: State, t: nat, at: Loop)
    requires t in s.threads && s.threads[t] == Looping(at) && !at.Ending?
    ensures var s1 := LoopStep(s, t, at, true);
            && s1.threads.Keys == s.threads.Keys && s1.threads == s.threads[t := s1.threads[t]] && s1.threads[t].Looping?
            && s1.accepted == s.accepted && (s1.failed <==> s.failed)
            && (s1.threads[t].at.Ending? ==> s1.queue == [])
            && Distance(s1, s1.threads[t].at) < Distance(s, at)
  {
  }

  /** A write that fails drops the peer: no later Enqueue is taken, and the loop is about to end. */
  lemma FailedWriteEnds(s: State, t: nat, later: nat, f: Outbound)
    requires t in s.threads && InHand(s.threads[t]) != []
    ensures var r := Step(s, Advance(t, false));
            && r.closed && r.failed && r.written == s.written && r.queue == s.queue
            && t in r.threads && r.threads[t] == Looping(Ending) && Step(r, Enqueue(later, f)) == r
  {
  }

  // ---- Stranded frames ----------------------------------------------------

  predicate EnsuringAt(s: State, t: nat) { t in s.threads && s.threads[t].Ensuring? }

  /** Frames are queued, the flag is down, and no Enqueue is on its way to a writer. */
  ghost predicate Stranded(s: State) { s.queue != [] && !s.writing && forall t :: !EnsuringAt(s, t) }

  /** The step that lowers the flag over a queue that is not empty, with no Enqueue about to see to a writer. */
  ghost predicate Strands(s: State, e: Event) {
    && e.Advance? && e.t in s.threads && s.threads[e.t] == Looping(Ending)
    && s.queue != [] && forall t :: !EnsuringAt(s, t)
  }

  /** Exactly that step strands frames. */
  lemma StrandedBy(es: seq<Event>, e: Event)
    requires !Stranded(Run(es))
    ensures Stranded(Step(Run(es), e)) <==> Strands(Run(es), e)
  {
    RunKeeps(es);
    var s := Run(es);
    hide Conserved, Run;
    if e.Advance? && e.t in s.threads {
      AdvanceStrands(s, e.t, e.ok);
    } else {
      assert forall t :: EnsuringAt(Step(s, e), t) <==> EnsuringAt(s, t);
    }
  }

  lemma AdvanceStrands(s: State, t: nat, ok: bool)
    requires OneWriter(s) && t in s.threads && !Stranded(s)
    ensures Stranded(ThreadStep(s, t, ok)) <==> Strands(s, Advance(t, ok))
  {
    var s' := ThreadStep(s, t, ok);
    match s.threads[t] {
      case Looping(at) =>
        LoopFrame(s, t, at, ok);
        assert WriterAt(s, t);
        assert s.writing;
        hide LoopStep, OneWriter;
        assert forall u :: EnsuringAt(s', u) <==> EnsuringAt(s, u);
        if at.Ending? { EndingKeepsQueue(s, t, ok); }
      case Offering(f) =>
        hide OneWriter;
        assert |s.queue| < QUEUE_CAP ==> EnsuringAt(s', t);
        assert forall u :: u != t ==> (EnsuringAt(s', u) <==> EnsuringAt(s, u));
      case Ensuring =>
        assert EnsuringAt(s, t) && s'.writing;
      case Spawned =>
        assert WriterAt(s, t) && s'.writing;
      case Gone =>
    }
  }

  lemma EndingKeepsQueue(s: State, t: nat, ok: bool)
    requires t in s.threads && s.threads[t] == Looping(Ending)
    ensures ThreadStep(s, t, ok).queue == s.queue
  {
  }

  ghost function RunFrom(s: State, es: seq<Event>): State
    decreases |es|
  {
    if es == [] then s else RunFrom(Step(s, es[0]), es[1..])
  }

  /** No later call can make room or bring a frame: the queue is full, or the peer is closed and no
      Enqueue is left that has passed its test of that. */
  ghost predicate Beyond(s: State) {
    |s.queue| == QUEUE_CAP || (s.closed && forall t :: t in s.threads ==> !s.threads[t].Offering?)
  }

  lemma BeyondStep(s: State, e: Event)
    requires OneWriter(s) && Stranded(s) && Beyond(s)
    ensures Stranded(Step(s, e)) && Beyond(Step(s, e))
    ensures Step(s, e).queue == s.queue && Step(s, e).written == s.written
  {
    if e.Advance? && e.t in s.threads {
      assert !WriterAt(s, e.t) && !EnsuringAt(s, e.t);
      hide OneWriter;
      assert forall u :: EnsuringAt(Step(s, e), u) ==> EnsuringAt(s, u) || u == e.t;
    } else {
      hide OneWriter;
      assert forall u :: EnsuringAt(Step(s, e), u) <==> EnsuringAt(s, u);
    }
  }

  lemma {:induction false} BeyondStays(s: State, es: seq<Event>)
    requires OneWriter(s) && Stranded(s) && Beyond(s)
    ensures Stranded(RunFrom(s, es)) && RunFrom(s, es).queue == s.queue && RunFrom(s, es).written == s.written
    decreases |es|
  {
    if es != [] {
      BeyondStep(s, es[0]);
      StepKeepsOne(s, es[0]);
      hide OneWriter, Stranded, Beyond, Step;
      BeyondStays(Step(s, es[0]), es[1..]);
    }
  }

  lemma Unused(m: map<nat, Thread>) returns (t: nat)
    ensures t !in m
  {
    t := UnusedId(m.Keys);
  }

  lemma {:induction false} UnusedId(ids: set<nat>) returns (t: nat)
    ensures forall k :: k in ids ==> k < t
    decreases |ids|
  {
    if ids == {} { return 0; }
    var k :| k in ids;
    t := UnusedId(ids - {k});
    if k >= t { t := k + 1; }
    assert forall j :: j in ids ==> j == k || j in ids - {k};
  }

  /** An Enqueue that finds room starts a writer, which takes up the stranded frames in order. */
  lemma OfferRevives(s: State, t: nat, f: Outbound)
    requires Stranded(s) && |s.queue| < QUEUE_CAP && t in s.threads && s.threads[t] == Offering(f)
    ensures RunFrom(s, [Advance(t, true), Advance(t, true), Advance(t, true), Advance(t, true), Advance(t, true)]).written
            == s.written + [s.queue[0]]
  {
    var a := Advance(t, true);
    var s1 := Step(s, a);
    assert s1 == s.(queue := s.queue + [f], accepted := s.accepted + [f], threads := s.threads[t := Ensuring]);
    var s2 := Step(s1, a);
    assert s2 == s1.(writing := true, threads := s1.threads[t := Spawned]);
    var s3 := Step(s2, a);
    assert s3 == s2.(threads := s2.threads[t := Looping(Head)]);
    var s4 := Step(s3, a);
    assert s4.threads[t] == Looping(Writing(s.queue[0])) && s4.written == s.written;
    var s5 := Step(s4, a);
    assert s5.written == s.written + [s.queue[0]];
    hide Step;
    FiveSteps(s, a);
  }

  lemma FiveSteps(s: State, a: Event)
    ensures RunFrom(s, [a, a, a, a, a]) == Step(Step(Step(Step(Step(s, a), a), a), a), a)
  {
    hide Step;
    FirstStep(s, a, [a, a, a, a]);
    FirstStep(Step(s, a), a, [a, a, a]);
    FirstStep(Step(Step(s, a), a), a, [a, a]);
    FirstStep(Step(Step(Step(s, a), a), a), a, [a]);
    FirstStep(Step(Step(Step(Step(s, a), a), a), a), a, []);
  }

  lemma FirstStep(s: State, a: Event, rest: seq<Event>)
    ensures RunFrom(s, [a] + rest) == RunFrom(Step(s, a), rest)
  {
    hide Step;
    assert ([a] + rest)[1..] == rest;
  }

  /** Frames stranded in a run can be written by some continuation of it exactly when the queue has
      room and an Enqueue can still come; otherwise they stay for ever. */
  lemma RevivedIff(es: seq<Event>)
    requires Stranded(Run(es))
    ensures var s := Run(es);
            (exists more :: RunFrom(s, more).written != s.written)
            <==> |s.queue| < QUEUE_CAP && (!s.closed || exists t :: t in s.threads && s.threads[t].Offering?)
  {
    RunKeeps(es);
    var s := Run(es);
    hide Run, Conserved;
    if Beyond(s) {
      hide OneWriter, RunFrom;
      forall more ensures RunFrom(s, more).written == s.written { BeyondStays(s, more); }
    } else {
      hide OneWriter, RunFrom;
      var more := Revive(s);
    }
  }

  lemma Revive(s: State) returns (more: seq<Event>)
    requires Stranded(s) && |s.queue| < QUEUE_CAP
    requires !s.closed || exists t :: t in s.threads && s.threads[t].Offering?
    ensures RunFrom(s, more).written == s.written + [s.queue[0]]
  {
    if !s.closed {
      var t := Unused(s.threads);
      var f := s.queue[0];
      var e := Enqueue(t, f);
      var s1 := Step(s, e);
      assert s1 == s.(threads := s.threads[t := Offering(f)]);
      assert forall u :: EnsuringAt(s1, u) <==> EnsuringAt(s, u);
      OfferRevives(s1, t, f);
      var rest := [Advance(t, true), Advance(t, true), Advance(t, true), Advance(t, true), Advance(t, true)];
      more := [e] + rest;
      hide Step;
      assert more[1..] == rest;
    } else {
      var t :| t in s.threads && s.threads[t].Offering?;
      OfferRevives(s, t, s.threads[t].frame);
      more := [Advance(t, true), Advance(t, true), Advance(t, true), Advance(t, true), Advance(t, true)];
    }
  }

  /** Frames accepted between the emptiness test and the lowering of the flag: any number up to the
      capacity can be stranded, in an open connection with nobody left to see to them. */
  lemma AnyNumberStrands(fs: seq<Outbound>)
    requires 1 <= |fs| <= QUEUE_CAP
    ensures exists s :: Reachable(s) && s.queue == fs && Stranded(s) && !s.closed
                        && forall k :: k in s.threads ==> s.threads[k].Gone?
  {
    var f := fs[0];
    hide Reachable;
    Nowhere();
    ReachStep(INITIAL, Enqueue(0, f));
    var s1 := INITIAL.(threads := INITIAL.threads[0 := Offering(f)]);
    ReachStep(s1, Advance(0, true));
    var s2 := s1.(queue := s1.queue + [f], accepted := s1.accepted + [f], threads := s1.threads[0 := Ensuring]);
    ReachStep(s2, Advance(0, true));
    var s3 := s2.(writing := true, threads := s2.threads[0 := Spawned]);
    ReachStep(s3, Advance(0, true));
    var s4 := s3.(threads := s3.threads[0 := Looping(Head)]);
    WriteOne(s4, f);
    var s8 :| Ended(s8, 1, []);
    hide Ended;
    PileUp(s8, fs, 0);
  }

  lemma Nowhere()
    ensures Reachable(INITIAL)
  {
    assert Run([]) == INITIAL;
  }

  /** A reachable state in which the writer is about to lower the flag and `n - 1` Enqueue calls are over. */
  ghost predicate Ended(s: State, n: nat, queue: seq<Outbound>) {
    && Reachable(s) && n >= 1 && s.writing && !s.closed && s.queue == queue
    && (forall k: nat :: k in s.threads <==> k < n)
    && s.threads[0] == Looping(Ending) && forall k :: 1 <= k < n ==> s.threads[k].Gone?
  }

  lemma WriteOne(s: State, f: Outbound)
    requires Reachable(s) && s.threads.Keys == {0} && s.threads[0] == Looping(Head) && s.queue == [f]
    requires s.writing && !s.closed
    ensures exists t :: Ended(t, 1, [])
  {
    hide Reachable;
    ReachStep(s, Advance(0, true));
    var s5 := s.(queue := s.queue[1..], threads := s.threads[0 := Looping(Writing(f))]);
    ReachStep(s5, Advance(0, true));
    var s6 := s5.(written := s5.written + [f], threads := s5.threads[0 := Looping(Drain)]);
    ReachStep(s6, Advance(0, true));
    var s7 := s6.(threads := s6.threads[0 := Looping(Testing)]);
    ReachStep(s7, Advance(0, true));
    var s8 := s7.(threads := s7.threads[0 := Looping(Ending)]);
    assert s8.queue == [];
    OnlyZero(s8.threads);
    assert Reachable(s8) && s8.threads[0] == Looping(Ending);
    assert Ended(s8, 1, []);
  }

  lemma OnlyZero(m: map<nat, Thread>)
    requires m.Keys == {0}
    ensures forall k: nat :: k in m <==> k < 1
  {
    assert forall k: nat :: k in m <==> k in m.Keys;
  }

  /** One more call offers its frame and finds the flag up. */
  lemma Piles(s: State, n: nat, queue: seq<Outbound>, f: Outbound) returns (r: State)
    requires Ended(s, n, queue) && |queue| < QUEUE_CAP
    ensures Ended(r, n + 1, queue + [f])
  {
    hide Reachable;
    ReachStep(s, Enqueue(n, f));
    var s1 := s.(threads := s.threads[n := Offering(f)]);
    ReachStep(s1, Advance(n, true));
    var s2 := s1.(queue := s1.queue + [f], accepted := s1.accepted + [f], threads := s1.threads[n := Ensuring]);
    ReachStep(s2, Advance(n, true));
    r := s2.(threads := s2.threads[n := Gone]);
  }

  lemma {:induction false} PileUp(s: State, fs: seq<Outbound>, k: nat)
    requires k <= |fs| <= QUEUE_CAP && fs != [] && Ended(s, k + 1, fs[..k])
    ensures exists r :: Reachable(r) && r.queue == fs && Stranded(r) && !r.closed
                        && forall j :: j in r.threads ==> r.threads[j].Gone?
    decreases |fs| - k
  {
    hide Reachable;
    if k < |fs| {
      hide Ended, Stranded;
      var r := Piles(s, k + 1, fs[..k], fs[k]);
      assert fs[..k] + [fs[k]] == fs[..k + 1];
      PileUp(r, fs, k + 1);
    } else {
      assert fs[..k] == fs;
      ReachStep(s, Advance(0, true));
      var r := s.(writing := false, threads := s.threads[0 := Gone]);
      assert Reachable(r) && Stranded(r);
    }
  }
}
