/** Whole runs of an accepted resync between two rooms over a lossless channel that keeps order,
    with the deliveries of the two directions interleaved in any way. */
module ResyncRuns {
  import opened Chunking
  import opened Wrappers
  import opened Strings
  import opened Wires
  import opened HistoryChunks
  import opened Resyncs

  /** The requester `a`, the approver `b` and what is on its way each way. */
  datatype Sys = Sys(a: Party, b: Party, ab: seq<Frame>, ba: seq<Frame>)

  ghost function Deliver(env: Env, s: Sys, toB: bool): Sys
    requires (if toB then s.ab else s.ba) != []
  {
    if toB then
      var r := Handle(env, s.b, s.ab[0]);
      Sys(s.a, r.0, s.ab[1..], s.ba + r.1)
    else
      var r := Handle(env, s.a, s.ba[0]);
      Sys(r.0, s.b, s.ab + r.1, s.ba[1..])
  }

  /** A schedule is a list of directions, each of which has a frame to deliver when its turn comes. */
  ghost predicate Possible(env: Env, s: Sys, schedule: seq<bool>)
    decreases |schedule|
  {
    schedule != [] ==>
      (if schedule[0] then s.ab else s.ba) != [] && Possible(env, Deliver(env, s, schedule[0]), schedule[1..])
  }

  ghost function Run(env: Env, s: Sys, schedule: seq<bool>): Sys
    requires Possible(env, s, schedule)
    decreases |schedule|
  {
    if schedule == [] then s else Run(env, Deliver(env, s, schedule[0]), schedule[1..])
  }

  predicate Quiet(s: Sys) { s.ab == [] && s.ba == [] }

  /** Both histories at the start, and the request. */
  datatype Setup = Setup(env: Env, requestId: string, ha: History, hb: History)

  predicate Blank(h: History) { "" in h }

  /** The chunks each side sends: none when the ids that call for them cannot be decoded. */
  ghost function SentByA(x: Setup): seq<Chunk> {
    if Blank(x.hb) then [] else BundleFor(x.env, x.ha, Listing(x.hb.Keys), x.requestId, true)
  }

  ghost function SentByB(x: Setup): seq<Chunk> {
    if Blank(x.hb) || Blank(x.ha) then [] else BundleFor(x.env, x.hb, Listing(x.ha.Keys), x.requestId, false)
  }

  /** A history with what the other side can send it. */
  ghost function Gains(env: Env, mine: History, theirs: History): History {
    Merge(mine, Readable(env.checks, ToWires(PushList(theirs, Listing(mine.Keys)))))
  }

  ghost function FinalA(x: Setup): History { if Blank(x.hb) || Blank(x.ha) then x.ha else Gains(x.env, x.ha, x.hb) }

  ghost function FinalB(x: Setup): History { if Blank(x.hb) then x.hb else Gains(x.env, x.hb, x.ha) }

  // ---- The phases of an exchange ------------------------------------------

  datatype Phase = Offered | Answered | Pushing(toB: nat, toA: nat)

  /** The first n indices. */
  function Upto(n: nat): set<nat> { if n == 0 then {} else Upto(n - 1) + {n - 1} }

  /** A party that has taken the first i of the chunks `o`, none of them if there are none. */
  ghost predicate Receiving(p: Party, before: History, after: History, o: seq<Chunk>, i: nat) {
    && i <= |o|
    && p.history == (if i < |o| || o == [] then before else after)
    && (i < |o| ==> Aligned(o) && Tracks(p.pending, o, Upto(i)))
  }

  ghost predicate Fresh(x: Setup, s: Sys) {
    && BundleId(x.requestId, true) !in s.b.pending && BundleId(x.requestId, false) !in s.a.pending
    && s.a.history == x.ha && s.b.history == x.hb && s.b.session == Some(Session(x.requestId, false))
  }

  ghost predicate At(x: Setup, s: Sys, ph: Phase) {
    match ph
    case Offered =>
      && Fresh(x, s) && s.a.session == Some(Session(x.requestId, true))
      && s.ab == [] && s.ba == [Accept(x.requestId, Listing(x.hb.Keys))]
    case Answered =>
      && Fresh(x, s) && !Blank(x.hb)
      && s.ab == [PeerIds(x.requestId, Listing(x.ha.Keys))] + AsFrames(SentByA(x)) && s.ba == []
    case Pushing(i, j) =>
      && Receiving(s.b, x.hb, FinalB(x), SentByA(x), i) && Receiving(s.a, x.ha, FinalA(x), SentByB(x), j)
      && s.ab == AsFrames(SentByA(x)[i..]) && s.ba == AsFrames(SentByB(x)[j..])
  }

  /** The deliveries an exchange takes from a phase on. */
  ghost function StepsLeft(x: Setup, ph: Phase): int {
    match ph
    case Offered => if Blank(x.hb) then 1 else 2 + |SentByA(x)| + |SentByB(x)|
    case Answered => 1 + |SentByA(x)| + |SentByB(x)|
    case Pushing(i, j) => |SentByA(x)| - i + |SentByB(x)| - j
  }

  lemma BundleForIs(env: Env, h: History, peerIds: seq<string>, rid: string, requester: bool)
    ensures var o := BundleFor(env, h, peerIds, rid, requester);
            && Bundle(o) && o[0].id == BundleId(rid, requester)
            && Flatten(Datas(o)) == env.packing.pack(ToWires(PushList(h, peerIds)))
  {
    PiecesBundle(BundleId(rid, requester), env.packing.pack(ToWires(PushList(h, peerIds))), CHUNK_BYTES);
  }

  lemma {:induction false} UptoHas(n: nat, k: nat)
    ensures k in Upto(n) <==> k < n
  {
    if n > 0 { UptoHas(n - 1, k); }
  }

  lemma UptoCovers(i: nat, n: nat)
    ensures Covers(Upto(i), n) <==> n <= i
    ensures Upto(i) == {} <==> i == 0
  {
    forall k: nat ensures k in Upto(i) <==> k < i { UptoHas(i, k); }
    assert Covers(Upto(i), n) && n > i ==> i in Upto(i);
    assert i > 0 ==> 0 in Upto(i);
  }

  /** The next chunk of a bundle that comes in order. */
  lemma NextChunk(m: map<string, Pending>, o: seq<Chunk>, i: nat)
    requires Bundle(o) && i < |o| && Tracks(m, o, Upto(i))
    ensures var r := ReceiveStep(m, o[i]);
            if i + 1 == |o| then r.1 == Complete(Flatten(Datas(o)))
            else Tracks(r.0, o, Upto(i + 1)) && !r.1.Complete?
  {
    UptoCovers(i, |o|);
    UptoCovers(i + 1, |o|);
    assert o[i].index == i && o[i] in o;
    ReceiveTracks(m, o[i], o, Upto(i));
    assert Zeros(0) == [];
    assert Upto(i + 1) == Upto(i) + {i};
    hide ReceiveStep, Flatten, Tracks, Covers, Upto;
  }

  lemma HandlePiece(env: Env, p: Party, c: Chunk)
    ensures var r := ReceiveStep(p.pending, c);
            var q := p.(pending := r.0);
            Handle(env, p, Piece(c)) == (if r.1.Complete? then Apply(env, q, RequestOf(c.id), r.1.blob) else q, [])
  {
  }

  lemma AppliedHistory(env: Env, p: Party, requestId: string, items: seq<Json>)
    requires env.packing.Inverse()
    ensures Apply(env, p, requestId, env.packing.pack(items)).history == Merge(p.history, Readable(env.checks, items))
  {
  }

  /** Taking the next chunk of a bundle; the last one merges what it carries. */
  lemma TakeChunk(env: Env, p: Party, mine: History, theirs: History, rid: string, requester: bool, i: nat)
    requires env.packing.Inverse()
    requires var o := BundleFor(env, theirs, Listing(mine.Keys), rid, requester);
             i < |o| && Receiving(p, mine, Gains(env, mine, theirs), o, i)
    ensures var o := BundleFor(env, theirs, Listing(mine.Keys), rid, requester);
            var r := Handle(env, p, Piece(o[i]));
            Receiving(r.0, mine, Gains(env, mine, theirs), o, i + 1) && r.1 == []
  {
    var o := BundleFor(env, theirs, Listing(mine.Keys), rid, requester);
    BundleForIs(env, theirs, Listing(mine.Keys), rid, requester);
    NextChunk(p.pending, o, i);
    AppliedHistory(env, p.(pending := ReceiveStep(p.pending, o[i]).0), RequestOf(o[i].id),
                   ToWires(PushList(theirs, Listing(mine.Keys))));
    HandlePiece(env, p, o[i]);
    hide BundleFor, ReceiveStep, Flatten, Merge, Readable, PushList, Tracks, Upto, Apply, ToWires, Listing, Handle,
         Bundle, Aligned, Datas, RequestOf;
  }

  lemma BlankListed(h: History)
    ensures DecodesIds(Listing(h.Keys)) <==> !Blank(h)
  {
  }

  lemma AsFramesTail(o: seq<Chunk>, i: nat)
    requires i < |o|
    ensures AsFrames(o[i..]) != [] && AsFrames(o[i..])[0] == Piece(o[i]) && AsFrames(o[i..])[1..] == AsFrames(o[i + 1..])
  {
  }

  lemma AsFramesEmpty(o: seq<Chunk>, i: nat)
    requires i <= |o|
    ensures AsFrames(o[i..]) == [] <==> i == |o|
  {
  }

  /** Before its first chunk a party is at the start of the bundle. */
  lemma NothingTaken(p: Party, before: History, after: History, o: seq<Chunk>)
    requires p.history == before && (o != [] ==> Bundle(o) && o[0].id !in p.pending)
    ensures Receiving(p, before, after, o, 0)
  {
  }

  lemma PushKeeps(env: Env, p: Party, requestId: string, peerIds: seq<string>)
    ensures var r := PushStep(env, p, requestId, peerIds);
            && r.0.history == p.history && r.0.pending == p.pending
            && r.1 == AsFrames(BundleFor(env, p.history, peerIds, requestId, p.session.None? || p.session.value.requester))
  {
  }

  lemma OfferTaken(x: Setup, s: Sys)
    requires At(x, s, Offered)
    ensures At(x, Deliver(x.env, s, false), if Blank(x.hb) then Pushing(0, 0) else Answered)
  {
    BlankListed(x.hb);
    PushKeeps(x.env, s.a, x.requestId, Listing(x.hb.Keys));
    hide BundleFor, PushStep, DecodesIds, Listing;
    var t := Deliver(x.env, s, false);
    if Blank(x.hb) {
      assert t.a == s.a && t.b == s.b && t.ab == [] && t.ba == [];
    } else {
      assert t.ab == [PeerIds(x.requestId, Listing(x.ha.Keys))] + AsFrames(SentByA(x));
      assert t.ba == [];
    }
  }

  lemma AnswerDelivered(x: Setup, s: Sys)
    requires At(x, s, Answered)
    ensures var t := Deliver(x.env, s, true);
            && t.a == s.a && t.ab == AsFrames(SentByA(x)) && t.ba == AsFrames(SentByB(x))
            && t.b.history == s.b.history && t.b.pending == s.b.pending
  {
    BlankListed(x.ha);
    PushKeeps(x.env, s.b, x.requestId, Listing(x.ha.Keys));
    hide BundleFor, PushStep, DecodesIds, Ascending, Elems, AsFrames;
    assert s.ab[0] == PeerIds(x.requestId, Listing(x.ha.Keys)) && s.ab[1..] == AsFrames(SentByA(x));
    assert s.ba == [];
  }

  lemma SentAreBundles(x: Setup)
    ensures SentByA(x) != [] ==> Bundle(SentByA(x)) && SentByA(x)[0].id == BundleId(x.requestId, true)
    ensures SentByB(x) != [] ==> Bundle(SentByB(x)) && SentByB(x)[0].id == BundleId(x.requestId, false)
  {
    BundleForIs(x.env, x.ha, Listing(x.hb.Keys), x.requestId, true);
    BundleForIs(x.env, x.hb, Listing(x.ha.Keys), x.requestId, false);
    hide BundleFor, Bundle, BundleId;
  }

  lemma AnswerTaken(x: Setup, s: Sys)
    requires At(x, s, Answered)
    ensures At(x, Deliver(x.env, s, true), Pushing(0, 0))
  {
    hide SentByA, SentByB, FinalA, FinalB, Deliver, Bundle, Receiving, Listing, AsFrames, BundleId;
    AnswerDelivered(x, s);
    SentAreBundles(x);
    var t := Deliver(x.env, s, true);
    NothingTaken(t.a, x.ha, FinalA(x), SentByB(x));
    NothingTaken(t.b, x.hb, FinalB(x), SentByA(x));
    assert SentByA(x)[0..] == SentByA(x) && SentByB(x)[0..] == SentByB(x);
  }

  /** What a side sends at all is a push to the other, which the other's history then gains. */
  lemma SentIsPush(x: Setup)
    ensures SentByA(x) != [] ==>
              && SentByA(x) == BundleFor(x.env, x.ha, Listing(x.hb.Keys), x.requestId, true)
              && FinalB(x) == Gains(x.env, x.hb, x.ha)
    ensures SentByB(x) != [] ==>
              && SentByB(x) == BundleFor(x.env, x.hb, Listing(x.ha.Keys), x.requestId, false)
              && FinalA(x) == Gains(x.env, x.ha, x.hb)
  {
    hide BundleFor, Gains, Listing;
  }

  /** A delivery that is not answered. */
  lemma DeliverQuietly(env: Env, s: Sys, toB: bool)
    requires if toB then s.ab != [] && Handle(env, s.b, s.ab[0]).1 == [] else s.ba != [] && Handle(env, s.a, s.ba[0]).1 == []
    ensures Deliver(env, s, toB) == if toB then Sys(s.a, Handle(env, s.b, s.ab[0]).0, s.ab[1..], s.ba)
                                    else Sys(Handle(env, s.a, s.ba[0]).0, s.b, s.ab, s.ba[1..])
  {
  }

  /** The next frame of a push, at its receiver. */
  lemma PieceTaken(env: Env, p: Party, queue: seq<Frame>, mine: History, theirs: History, rid: string,
                   requester: bool, i: nat)
    requires env.packing.Inverse()
    requires var o := BundleFor(env, theirs, Listing(mine.Keys), rid, requester);
             i < |o| && Receiving(p, mine, Gains(env, mine, theirs), o, i) && queue == AsFrames(o[i..])
    ensures var o := BundleFor(env, theirs, Listing(mine.Keys), rid, requester);
            && queue != [] && queue[1..] == AsFrames(o[i + 1..])
            && Receiving(Handle(env, p, queue[0]).0, mine, Gains(env, mine, theirs), o, i + 1)
            && Handle(env, p, queue[0]).1 == []
  {
    AsFramesTail(BundleFor(env, theirs, Listing(mine.Keys), rid, requester), i);
    hide BundleFor, Handle, Gains, Listing, Receiving, AsFrames;
    TakeChunk(env, p, mine, theirs, rid, requester, i);
  }

  lemma PieceToB(x: Setup, s: Sys, i: nat, j: nat)
    requires At(x, s, Pushing(i, j)) && i < |SentByA(x)| && x.env.packing.Inverse()
    ensures s.ab != [] && At(x, Deliver(x.env, s, true), Pushing(i + 1, j))
  {
    hide SentByA, SentByB, FinalA, FinalB, BundleFor, Handle, Gains, Receiving, AsFrames, Ascending, Elems, Fresh,
         Blank, Deliver, Packing.Inverse;
    SentIsPush(x);
    PieceTaken(x.env, s.b, s.ab, x.hb, x.ha, x.requestId, true, i);
    DeliverQuietly(x.env, s, true);
  }

  lemma PieceToA(x: Setup, s: Sys, i: nat, j: nat)
    requires At(x, s, Pushing(i, j)) && j < |SentByB(x)| && x.env.packing.Inverse()
    ensures s.ba != [] && At(x, Deliver(x.env, s, false), Pushing(i, j + 1))
  {
    hide SentByA, SentByB, FinalA, FinalB, BundleFor, Handle, Gains, Receiving, AsFrames, Ascending, Elems, Fresh,
         Blank, Deliver, Packing.Inverse;
    SentIsPush(x);
    PieceTaken(x.env, s.a, s.ba, x.ha, x.hb, x.requestId, false, j);
    DeliverQuietly(x.env, s, false);
  }

  function NextPhase(x: Setup, ph: Phase, toB: bool): Phase {
    match ph
    case Offered => if Blank(x.hb) then Pushing(0, 0) else Answered
    case Answered => Pushing(0, 0)
    case Pushing(i, j) => if toB then Pushing(i + 1, j) else Pushing(i, j + 1)
  }

  /** Which deliveries a phase allows. */
  lemma Deliverable(x: Setup, s: Sys, ph: Phase, toB: bool)
    requires At(x, s, ph) && (if toB then s.ab else s.ba) != []
    ensures ph.Offered? ==> !toB
    ensures ph.Answered? ==> toB
    ensures ph.Pushing? ==> if toB then ph.toB < |SentByA(x)| else ph.toA < |SentByB(x)|
  {
    if ph.Pushing? {
      AsFramesEmpty(SentByA(x), ph.toB);
      AsFramesEmpty(SentByB(x), ph.toA);
    }
    hide SentByA, SentByB, FinalA, FinalB, AsFrames;
  }

  lemma StepsFall(x: Setup, ph: Phase, toB: bool)
    requires ph.Offered? ==> !toB
    requires ph.Answered? ==> toB
    ensures StepsLeft(x, NextPhase(x, ph, toB)) == StepsLeft(x, ph) - 1
  {
    hide BundleFor;
  }

  /** Every delivery moves the exchange on by one. */
  lemma DeliveryAdvances(x: Setup, s: Sys, ph: Phase, toB: bool)
    requires At(x, s, ph) && x.env.packing.Inverse() && (if toB then s.ab else s.ba) != []
    ensures At(x, Deliver(x.env, s, toB), NextPhase(x, ph, toB))
    ensures StepsLeft(x, NextPhase(x, ph, toB)) == StepsLeft(x, ph) - 1
    ensures ph.Offered? ==> !toB
    ensures ph.Answered? ==> toB
    ensures ph.Pushing? ==> if toB then ph.toB < |SentByA(x)| else ph.toA < |SentByB(x)|
  {
    hide At, Deliver, StepsLeft, SentByA, SentByB;
    Deliverable(x, s, ph, toB);
    StepsFall(x, ph, toB);
    match ph
    case Offered => OfferTaken(x, s);
    case Answered => AnswerTaken(x, s);
    case Pushing(i, j) => if toB { PieceToB(x, s, i, j); } else { PieceToA(x, s, i, j); }
  }

  /** Nothing is left to deliver exactly when the exchange is over, and then both have all. */
  lemma QuietMeansDone(x: Setup, s: Sys, ph: Phase)
    requires At(x, s, ph)
    ensures StepsLeft(x, ph) >= 0 && (Quiet(s) <==> StepsLeft(x, ph) == 0)
    ensures Quiet(s) ==> s.a.history == FinalA(x) && s.b.history == FinalB(x)
  {
    hide BundleFor, Gains;
    if ph.Pushing? {
      AsFramesEmpty(SentByA(x), ph.toB);
      AsFramesEmpty(SentByB(x), ph.toA);
      BundleForIs(x.env, x.ha, Listing(x.hb.Keys), x.requestId, true);
      BundleForIs(x.env, x.hb, Listing(x.ha.Keys), x.requestId, false);
    }
  }

  lemma {:induction false} RunReaches(x: Setup, s: Sys, ph: Phase, schedule: seq<bool>) returns (last: Phase)
    requires At(x, s, ph) && x.env.packing.Inverse() && Possible(x.env, s, schedule)
    ensures At(x, Run(x.env, s, schedule), last) && StepsLeft(x, last) == StepsLeft(x, ph) - |schedule|
    decreases |schedule|
  {
    hide At, Deliver, StepsLeft;
    if schedule == [] {
      last := ph;
    } else {
      DeliveryAdvances(x, s, ph, schedule[0]);
      last := RunReaches(x, Deliver(x.env, s, schedule[0]), NextPhase(x, ph, schedule[0]), schedule[1..]);
    }
  }

  /** Every run of an accepted exchange, however its deliveries interleave, ends after the same
      number of them and not before, with each side holding its own history and what the other
      could send it. */
  lemma ExchangeCompletes(x: Setup, s: Sys, schedule: seq<bool>)
    requires At(x, s, Offered) && x.env.packing.Inverse() && Possible(x.env, s, schedule)
    ensures |schedule| <= StepsLeft(x, Offered)
    ensures Quiet(Run(x.env, s, schedule)) <==> |schedule| == StepsLeft(x, Offered)
    ensures var t := Run(x.env, s, schedule);
            Quiet(t) ==> t.a.history == FinalA(x) && t.b.history == FinalB(x)
  {
    var last := RunReaches(x, s, Offered, schedule);
    QuietMeansDone(x, Run(x.env, s, schedule), last);
    hide Run, At, StepsLeft, Possible;
  }

  // ---- What the two histories then are ------------------------------------

  /** Sending a history to another: nothing held is touched, every missing message that survives
      the wire is added, and shows the other side as its sender. */
  lemma GainsAre(env: Env, mine: History, theirs: History, id: string)
    ensures id in mine ==> id in Gains(env, mine, theirs) && Gains(env, mine, theirs)[id] == mine[id]
    ensures id in Gains(env, mine, theirs) && id !in mine <==>
            id in theirs && id !in mine && Survives(env.checks, theirs[id])
    ensures id in Gains(env, mine, theirs) && id !in mine ==>
              id in theirs && Arrived(env.checks, theirs[id], Gains(env, mine, theirs)[id])
  {
    var list := PushList(theirs, Listing(mine.Keys));
    var got := Readable(env.checks, ToWires(list));
    MergeAdds(mine, got);
    assert id in Listing(mine.Keys) <==> id in Elems(Listing(mine.Keys));
    if id !in mine {
      if id in theirs && Survives(env.checks, theirs[id]) {
        PushListMembers(theirs, Listing(mine.Keys), theirs[id]);
        var k :| 0 <= k < |list| && list[k] == theirs[id];
        ReadableMembers(env.checks, list, Flip(Cleaned(env.checks, theirs[id])));
        CleanedId(env.checks, theirs[id]);
        hide PushList, Merge, Readable, Flip, Cleaned, Survives;
        assert id in Ids(got);
      }
      if id in Merge(mine, got) {
        GainedFrom(env, mine, theirs, Merge(mine, got)[id]);
        ArrivedIff(env.checks, theirs[id], Merge(mine, got)[id]);
      }
    }
  }

  lemma CleanedId(checks: Checks, m: Message)
    ensures Flip(Cleaned(checks, m)).id == m.id
  {
  }

  /** A message read from a push is one of the peer's, cleaned. */
  lemma GainedFrom(env: Env, mine: History, theirs: History, y: Message)
    requires y in Readable(env.checks, ToWires(PushList(theirs, Listing(mine.Keys))))
    ensures y.id in theirs && Survives(env.checks, theirs[y.id]) && y == Flip(Cleaned(env.checks, theirs[y.id]))
  {
    var list := PushList(theirs, Listing(mine.Keys));
    ReadableMembers(env.checks, list, y);
    var k :| 0 <= k < |list| && Survives(env.checks, list[k]) && y == Flip(Cleaned(env.checks, list[k]));
    PushListMembers(theirs, Listing(mine.Keys), list[k]);
    CleanedId(env.checks, list[k]);
  }

  /** Every message of one history that the other lacks survives the wire. */
  ghost predicate AllSurvive(checks: Checks, from: History, to: History) {
    forall id :: id in from && id !in to ==> Survives(checks, from[id])
  }

  lemma GainsKeys(env: Env, mine: History, theirs: History)
    ensures Gains(env, mine, theirs).Keys ==
            mine.Keys + set id | id in theirs && id !in mine && Survives(env.checks, theirs[id])
    ensures Gains(env, mine, theirs).Keys == mine.Keys + theirs.Keys <==> AllSurvive(env.checks, theirs, mine)
  {
    forall id ensures id in Gains(env, mine, theirs) <==>
                      id in mine || (id in theirs && id !in mine && Survives(env.checks, theirs[id]))
    {
      GainsAre(env, mine, theirs, id);
    }
    hide Gains, Survives;
    if AllSurvive(env.checks, theirs, mine) {
      assert Gains(env, mine, theirs).Keys == mine.Keys + theirs.Keys;
    } else {
      var id :| id in theirs && id !in mine && !Survives(env.checks, theirs[id]);
      assert id in mine.Keys + theirs.Keys && id !in Gains(env, mine, theirs).Keys;
    }
  }

  /** Convergence: when the two end with the same ids. An empty id on the approver's side stops
      the exchange, on the requester's side it stops one direction. */
  lemma ConvergesIff(x: Setup)
    ensures FinalA(x).Keys == FinalB(x).Keys <==>
            if Blank(x.hb) then x.ha.Keys == x.hb.Keys
            else if Blank(x.ha) then x.hb.Keys <= x.ha.Keys && AllSurvive(x.env.checks, x.ha, x.hb)
            else AllSurvive(x.env.checks, x.ha, x.hb) && AllSurvive(x.env.checks, x.hb, x.ha)
  {
    GainsKeys(x.env, x.ha, x.hb);
    GainsKeys(x.env, x.hb, x.ha);
    hide Gains, AllSurvive, Survives;
    var a, b := Gains(x.env, x.ha, x.hb).Keys, Gains(x.env, x.hb, x.ha).Keys;
    var all := x.ha.Keys + x.hb.Keys;
    assert x.hb.Keys + x.ha.Keys == all;
    assert a == b ==> a == all;
    if Blank(x.ha) && !Blank(x.hb) {
      assert x.ha.Keys == b ==> x.hb.Keys <= x.ha.Keys;
      assert x.hb.Keys <= x.ha.Keys ==> all == x.ha.Keys;
    }
  }

  /** Then the mismatch flag each side puts up on the other's next digest is down. */
  lemma DigestsAgreeAfter(x: Setup)
    requires AllSurvive(x.env.checks, x.ha, x.hb) && AllSurvive(x.env.checks, x.hb, x.ha)
    requires !Blank(x.ha) && !Blank(x.hb)
    ensures FinalA(x).Keys == FinalB(x).Keys == x.ha.Keys + x.hb.Keys
    ensures IdHash(Listing(FinalA(x).Keys)) == IdHash(Listing(FinalB(x).Keys))
  {
    GainsKeys(x.env, x.ha, x.hb);
    GainsKeys(x.env, x.hb, x.ha);
    hide Gains, AllSurvive;
  }

  /** A message sent over is the same one but for its side exactly when it meets the checks. */
  lemma MirroredIff(env: Env, mine: History, theirs: History, id: string)
    requires id in theirs && id !in mine && Survives(env.checks, theirs[id])
    ensures id in Gains(env, mine, theirs)
    ensures Gains(env, mine, theirs)[id] == theirs[id].(from := if theirs[id].from == Side.Self then Side.Peer else Side.Self)
            <==> Exact(env.checks, theirs[id])
  {
    GainsAre(env, mine, theirs, id);
    hide Gains;
  }
}
