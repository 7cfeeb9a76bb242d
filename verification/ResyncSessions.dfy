/** When the two sides of an accepted resync report that it is done. */
module ResyncSessions {
  import opened Chunking
  import opened Wrappers
  import opened Strings
  import opened Wires
  import opened HistoryChunks
  import opened Resyncs
  import opened ResyncRuns

  /** The other side holds a message this one does not. */
  ghost predicate Lacks(mine: History, theirs: History) { exists id :: id in theirs && id !in mine }

  /** A side that still waits for the other's bundle has its session open; one that does not has
      closed it and expects nothing. */
  ghost predicate Awaits(p: Party, requestId: string, requester: bool, waiting: bool) {
    if waiting then
      p.session == Some(Session(requestId, requester)) && requestId in p.expected && p.expected[requestId] > 0
    else p.session == None && requestId !in p.expected
  }

  ghost predicate SessionsAt(x: Setup, s: Sys, ph: Phase) {
    match ph
    case Offered => true
    case Answered => Awaits(s.a, x.requestId, true, Lacks(x.ha, x.hb))
    case Pushing(i, j) =>
      && Awaits(s.b, x.requestId, false, Lacks(x.hb, x.ha) && i < |SentByA(x)|)
      && Awaits(s.a, x.requestId, true, Lacks(x.ha, x.hb) && j < |SentByB(x)|)
  }

  lemma LacksIsExpected(mine: History, theirs: History)
    ensures IdsOnlyInA(Listing(theirs.Keys), Listing(mine.Keys)) != [] <==> Lacks(mine, theirs)
  {
    var l := IdsOnlyInA(Listing(theirs.Keys), Listing(mine.Keys));
    forall id ensures id in l <==> id in theirs && id !in mine {
      OnlyInAMembers(Listing(theirs.Keys), Listing(mine.Keys), id);
      assert id in Listing(theirs.Keys) <==> id in Elems(Listing(theirs.Keys));
      assert id in Listing(mine.Keys) <==> id in Elems(Listing(mine.Keys));
    }
    if l != [] { assert l[0] in l; }
  }

  lemma PushAwaits(env: Env, p: Party, theirs: History, requestId: string, requester: bool)
    requires p.session == Some(Session(requestId, requester))
    ensures Awaits(PushStep(env, p, requestId, Listing(theirs.Keys)).0, requestId, requester, Lacks(p.history, theirs))
  {
    LacksIsExpected(p.history, theirs);
    hide BundleFor, Lacks, Listing, IdsOnlyInA;
  }

  lemma {:induction false} RequestOfPrefix(requestId: string, rest: string)
    requires ':' !in requestId
    ensures RequestOf(requestId + ":" + rest) == requestId
  {
    var id := requestId + ":" + rest;
    if requestId != "" {
      RequestOfPrefix(requestId[1..], rest);
      assert id[1..] == requestId[1..] + ":" + rest;
    }
  }

  /** The next chunk leaves the session alone, and the last one closes it. */
  lemma ChunkSettles(env: Env, p: Party, mine: History, theirs: History, rid: string, fromRequester: bool, i: nat, wants: bool)
    requires env.packing.Inverse() && ':' !in rid
    requires var o := BundleFor(env, theirs, Listing(mine.Keys), rid, fromRequester);
             i < |o| && Receiving(p, mine, Gains(env, mine, theirs), o, i)
    requires Awaits(p, rid, !fromRequester, wants)
    ensures var o := BundleFor(env, theirs, Listing(mine.Keys), rid, fromRequester);
            Awaits(Handle(env, p, Piece(o[i])).0, rid, !fromRequester, wants && i + 1 < |o|)
  {
    var o := BundleFor(env, theirs, Listing(mine.Keys), rid, fromRequester);
    BundleForIs(env, theirs, Listing(mine.Keys), rid, fromRequester);
    NextChunk(p.pending, o, i);
    RequestOfPrefix(rid, if fromRequester then "requester" else "approver");
    assert o[i].id == o[0].id;
    HandlePiece(env, p, o[i]);
    hide BundleFor, ReceiveStep, Flatten, Merge, Readable, PushList, Tracks, Upto, ToWires, Listing, Handle, RequestOf,
         Bundle, Aligned, Gains;
  }

  lemma OfferSettles(x: Setup, s: Sys)
    requires At(x, s, Offered) && !Blank(x.hb)
    ensures Awaits(Deliver(x.env, s, false).a, x.requestId, true, Lacks(x.ha, x.hb))
  {
    BlankListed(x.hb);
    PushAwaits(x.env, s.a, x.hb, x.requestId, true);
    hide PushStep, Lacks, Listing, DecodesIds, Awaits;
  }

  lemma AnswerSettles(x: Setup, s: Sys)
    requires At(x, s, Answered) && !Blank(x.ha)
    ensures Awaits(Deliver(x.env, s, true).b, x.requestId, false, Lacks(x.hb, x.ha))
    ensures Deliver(x.env, s, true).a == s.a
  {
    BlankListed(x.ha);
    PushAwaits(x.env, s.b, x.ha, x.requestId, false);
    hide PushStep, Lacks, Listing, DecodesIds, Awaits, SentByA, AsFrames;
  }

  lemma PieceSettlesB(x: Setup, s: Sys, i: nat, j: nat)
    requires At(x, s, Pushing(i, j)) && SessionsAt(x, s, Pushing(i, j)) && x.env.packing.Inverse()
    requires ':' !in x.requestId && !Blank(x.hb) && i < |SentByA(x)|
    ensures s.ab != [] && SessionsAt(x, Deliver(x.env, s, true), Pushing(i + 1, j))
  {
    SentIsPush(x);
    AsFramesTail(SentByA(x), i);
    hide BundleFor, Gains, Receiving, AsFrames, Handle, Awaits, Lacks, SentByA, SentByB, FinalA, FinalB, Blank;
    ChunkSettles(x.env, s.b, x.hb, x.ha, x.requestId, true, i, Lacks(x.hb, x.ha) && i < |SentByA(x)|);
  }

  lemma PieceSettlesA(x: Setup, s: Sys, i: nat, j: nat)
    requires At(x, s, Pushing(i, j)) && SessionsAt(x, s, Pushing(i, j)) && x.env.packing.Inverse()
    requires ':' !in x.requestId && !Blank(x.ha) && !Blank(x.hb) && j < |SentByB(x)|
    ensures s.ba != [] && SessionsAt(x, Deliver(x.env, s, false), Pushing(i, j + 1))
  {
    SentIsPush(x);
    AsFramesTail(SentByB(x), j);
    hide BundleFor, Gains, Receiving, AsFrames, Handle, Awaits, Lacks, SentByA, SentByB, FinalA, FinalB, Blank;
    ChunkSettles(x.env, s.a, x.ha, x.hb, x.requestId, false, j, Lacks(x.ha, x.hb) && j < |SentByB(x)|);
  }

  lemma SomethingSent(x: Setup)
    requires !Blank(x.ha) && !Blank(x.hb)
    ensures |SentByA(x)| > 0 && |SentByB(x)| > 0
  {
    BundleForIs(x.env, x.ha, Listing(x.hb.Keys), x.requestId, true);
    BundleForIs(x.env, x.hb, Listing(x.ha.Keys), x.requestId, false);
    hide BundleFor;
  }

  lemma SessionsAdvance(x: Setup, s: Sys, ph: Phase, toB: bool)
    requires At(x, s, ph) && SessionsAt(x, s, ph) && x.env.packing.Inverse() && (if toB then s.ab else s.ba) != []
    requires ':' !in x.requestId && !Blank(x.ha) && !Blank(x.hb)
    ensures SessionsAt(x, Deliver(x.env, s, toB), NextPhase(x, ph, toB))
  {
    hide At, Deliver, Awaits, Lacks, SentByA, SentByB, StepsLeft;
    DeliveryAdvances(x, s, ph, toB);
    match ph
    case Offered =>
      OfferSettles(x, s);
    case Answered =>
      AnswerSettles(x, s);
      SomethingSent(x);
    case Pushing(i, j) =>
      hide SessionsAt;
      if toB { PieceSettlesB(x, s, i, j); } else { PieceSettlesA(x, s, i, j); }
  }

  lemma {:induction false} SessionsReach(x: Setup, s: Sys, ph: Phase, schedule: seq<bool>) returns (last: Phase)
    requires At(x, s, ph) && SessionsAt(x, s, ph) && x.env.packing.Inverse() && Possible(x.env, s, schedule)
    requires ':' !in x.requestId && !Blank(x.ha) && !Blank(x.hb)
    ensures var t := Run(x.env, s, schedule); At(x, t, last) && SessionsAt(x, t, last)
    decreases |schedule|
  {
    hide At, SessionsAt, Deliver, NextPhase;
    if schedule == [] {
      last := ph;
    } else {
      DeliveryAdvances(x, s, ph, schedule[0]);
      SessionsAdvance(x, s, ph, schedule[0]);
      last := SessionsReach(x, Deliver(x.env, s, schedule[0]), NextPhase(x, ph, schedule[0]), schedule[1..]);
    }
  }

  /** A side reports the exchange as done no later than it is, and once nothing is left to deliver
      both have: neither closes its session while a message it lacks is still to come, and neither
      keeps it open after. */
  lemma SessionsClose(x: Setup, s: Sys, schedule: seq<bool>)
    requires At(x, s, Offered) && x.env.packing.Inverse() && Possible(x.env, s, schedule)
    requires ':' !in x.requestId && !Blank(x.ha) && !Blank(x.hb)
    ensures var t := Run(x.env, s, schedule);
            Quiet(t) ==> t.a.session == None && t.b.session == None
                         && x.requestId !in t.a.expected && x.requestId !in t.b.expected
    ensures var t := Run(x.env, s, schedule);
            (t.a.session == None && Lacks(x.ha, x.hb) ==> t.a.history == FinalA(x))
            && (t.b.session == None && Lacks(x.hb, x.ha) ==> t.b.history == FinalB(x))
  {
    var last := SessionsReach(x, s, Offered, schedule);
    var t := Run(x.env, s, schedule);
    QuietMeansDone(x, t, last);
    SomethingSent(x);
    hide Run, SentByA, SentByB, FinalA, FinalB, Lacks, AsFrames;
  }
}
