/** History resync: the digest that shows two histories differ, and the exchange that makes them
    the same (web/src/lib/relay/connection-manager.ts, web/src/lib/crypto/history-sync.ts,
    web/src/lib/storage/history.ts). */
module Resyncs {
  import opened Chunking
  import opened Wrappers
  import opened Strings
  import opened Wires
  import opened HistoryChunks

  // ---- Digests ------------------------------------------------------------

  /** SHA-256 of a text, taken to be injective. */
  datatype Digest = Digest(preimage: string)

  function IdHash(ids: seq<string>): Digest { Digest(Join(Sort(ids))) }

  predicate PlainIds(ids: set<string>) { forall id :: id in ids ==> '\n' !in id }

  /** The empty history and the history of one message with an empty id. */
  predicate EmptyOrBlank(a: set<string>, b: set<string>) { (a == {} && b == {""}) || (a == {""} && b == {}) }

  /** Digests are equal exactly when the id sets are, but for one collision. */
  lemma DigestsEqualIff(a: seq<string>, b: seq<string>)
    requires Distinct(a) && Distinct(b) && PlainIds(Elems(a)) && PlainIds(Elems(b))
    ensures IdHash(a) == IdHash(b) <==> Elems(a) == Elems(b) || EmptyOrBlank(Elems(a), Elems(b))
  {
    SortIsListing(a);
    SortIsListing(b);
    var x, y := Listing(Elems(a)), Listing(Elems(b));
    hide Sort, Ascending;
    forall i | 0 <= i < |x| ensures '\n' !in x[i] { assert x[i] in Elems(x); }
    forall i | 0 <= i < |y| ensures '\n' !in y[i] { assert y[i] in Elems(y); }
    if Join(x) == Join(y) {
      JoinInjective(x, y);
    }
    if EmptyOrBlank(Elems(a), Elems(b)) {
      BlankListing(x);
      BlankListing(y);
    }
  }

  lemma BlankListing(x: seq<string>)
    requires Ascending(x)
    ensures Elems(x) == {} ==> x == []
    ensures Elems(x) == {""} ==> x == [""]
  {
    assert x != [] ==> x[0] in Elems(x);
    assert Ascending([""]) && Elems([""]) == {""};
    if Elems(x) == {""} { AscendingUnique(x, [""]); }
  }

  /** Ids with newlines collide: two ids against one that joins them. */
  lemma NewlineCollides()
    ensures IdHash(["a", "b"]) == IdHash(["a\nb"])
  {
    assert Sort(["b"]) == ["b"];
    assert Sort(["a", "b"]) == ["a", "b"];
    assert ["a", "b"][1..] == ["b"];
    assert Join(["a", "b"]) == "a" + "\n" + Join(["b"]) == "a\nb";
    assert Sort(["a\nb"]) == ["a\nb"];
  }

  // ---- Histories ----------------------------------------------------------

  /** The store of one room, by message id. */
  type History = h: map<string, Message> | forall id :: id in h ==> h[id].id == id witness map[]

  function Ids(ms: seq<Message>): set<string> { set m | m in ms :: m.id }

  /** mergeMessages: ids already there keep their message, a new id takes its first one. */
  function Merge(h: History, ms: seq<Message>): (r: History)
    ensures forall id :: id in h ==> id in r && r[id] == h[id]
  {
    if ms == [] then h
    else
      var p := Merge(h, ms[..|ms| - 1]);
      var m := ms[|ms| - 1];
      if m.id in p then p else p[m.id := m]
  }

  /** Merging adds exactly the ids sent, each with a message that was sent. */
  lemma {:induction false} MergeAdds(h: History, ms: seq<Message>)
    ensures Merge(h, ms).Keys == h.Keys + Ids(ms)
    ensures forall id :: id in Merge(h, ms) && id !in h ==> Merge(h, ms)[id] in ms
  {
    if ms != [] {
      var n := |ms| - 1;
      MergeAdds(h, ms[..n]);
      assert ms == ms[..n] + [ms[n]];
      assert Ids(ms) == Ids(ms[..n]) + {ms[n].id};
    }
  }

  /** ... and of several messages with one id, the first. */
  lemma {:induction false} MergeKeepsFirst(h: History, ms: seq<Message>, k: nat)
    requires k < |ms| && ms[k].id !in h && forall j :: 0 <= j < k ==> ms[j].id != ms[k].id
    ensures ms[k].id in Merge(h, ms) && Merge(h, ms)[ms[k].id] == ms[k]
    decreases |ms|
  {
    var n := |ms| - 1;
    if k < n {
      MergeKeepsFirst(h, ms[..n], k);
    } else {
      NotAmong(ms[..n], ms[k].id);
      MergeAdds(h, ms[..n]);
      hide Merge, Ids;
      MergeSnoc(h, ms);
    }
  }

  lemma NotAmong(ms: seq<Message>, id: string)
    requires forall j :: 0 <= j < |ms| ==> ms[j].id != id
    ensures id !in Ids(ms)
  {
  }

  lemma MergeSnoc(h: History, ms: seq<Message>)
    requires ms != [] && ms[|ms| - 1].id !in Merge(h, ms[..|ms| - 1])
    ensures ms[|ms| - 1].id in Merge(h, ms) && Merge(h, ms)[ms[|ms| - 1].id] == ms[|ms| - 1]
  {
  }

  /** The messages in the order of their ids. */
  ghost function Listed(h: History): (ms: seq<Message>)
    ensures |ms| == |Listing(h.Keys)|
    ensures forall i :: 0 <= i < |ms| ==> Listing(h.Keys)[i] in h && ms[i] == h[Listing(h.Keys)[i]]
  {
    var ids := Listing(h.Keys);
    assert forall i :: 0 <= i < |ids| ==> ids[i] in Elems(ids);
    seq(|ids|, i requires 0 <= i < |ids| => h[ids[i]])
  }

  function IdsOnlyInA(a: seq<string>, b: seq<string>): seq<string> {
    if a == [] then [] else (if a[0] in b then [] else [a[0]]) + IdsOnlyInA(a[1..], b)
  }

  function FilterMessagesByIds(ms: seq<Message>, ids: seq<string>): seq<Message> {
    if ms == [] then [] else (if ms[0].id in ids then [ms[0]] else []) + FilterMessagesByIds(ms[1..], ids)
  }

  lemma {:induction false} OnlyInAMembers(a: seq<string>, b: seq<string>, x: string)
    ensures x in IdsOnlyInA(a, b) <==> x in a && x !in b
  {
    if a != [] { OnlyInAMembers(a[1..], b, x); }
  }

  lemma {:induction false} FilterMembers(ms: seq<Message>, ids: seq<string>, x: Message)
    ensures x in FilterMessagesByIds(ms, ids) <==> x in ms && x.id in ids
  {
    if ms != [] { FilterMembers(ms[1..], ids, x); }
  }

  /** The messages to send to a peer that has named its ids. */
  ghost function PushList(h: History, peerIds: seq<string>): seq<Message> {
    FilterMessagesByIds(Listed(h), IdsOnlyInA(Listing(h.Keys), peerIds))
  }

  /** They are exactly the ones the peer does not have. */
  lemma PushListMembers(h: History, peerIds: seq<string>, x: Message)
    ensures x in PushList(h, peerIds) <==> x.id in h && h[x.id] == x && x.id !in peerIds
  {
    var ids := Listing(h.Keys);
    OnlyInAMembers(ids, peerIds, x.id);
    FilterMembers(Listed(h), IdsOnlyInA(ids, peerIds), x);
    if x.id in h && h[x.id] == x {
      assert x.id in Elems(ids);
      var i :| 0 <= i < |ids| && ids[i] == x.id;
      assert Listed(h)[i] == x;
    }
  }

  // ---- The exchange, one side at a time -----------------------------------

  datatype Frame =
    | Accept(requestId: string, ids: seq<string>)
    | Reject(requestId: string)
    | PeerIds(requestId: string, ids: seq<string>)
    | Piece(chunk: Chunk)

  datatype Session = Session(requestId: string, requester: bool)

  datatype Party = Party(
    history: History,
    pending: map<string, Pending>,
    session: Option<Session>,
    expected: map<string, nat>)

  datatype Env = Env(checks: Checks, packing: Packing)

  /** The decoder takes no frame that names an empty id. */
  predicate DecodesIds(ids: seq<string>) { "" !in ids }

  function Finish(p: Party, requestId: string): Party {
    if requestId in p.expected && p.expected[requestId] > 0 then p
    else p.(expected := p.expected - {requestId}, session := None)
  }

  function BundleId(requestId: string, requester: bool): string {
    requestId + ":" + if requester then "requester" else "approver"
  }

  function AsFrames(cs: seq<Chunk>): (fs: seq<Frame>)
    ensures |fs| == |cs| && forall i :: 0 <= i < |cs| ==> fs[i] == Piece(cs[i])
  {
    seq(|cs|, i requires 0 <= i < |cs| => Piece(cs[i]))
  }

  /** The chunks that carry one side's missing messages. */
  ghost function BundleFor(env: Env, h: History, peerIds: seq<string>, requestId: string, requester: bool): seq<Chunk> {
    Pieces(BundleId(requestId, requester), env.packing.pack(ToWires(PushList(h, peerIds))), CHUNK_BYTES)
  }

  /** runDifferentialPush: the new state and the frames sent. */
  ghost function PushStep(env: Env, p: Party, requestId: string, peerIds: seq<string>): (Party, seq<Frame>) {
    var requester := p.session.None? || p.session.value.requester;
    var onlyTheirs := IdsOnlyInA(peerIds, Listing(p.history.Keys));
    var q := p.(expected := p.expected[requestId := if onlyTheirs == [] then 0 else 1]);
    (if onlyTheirs == [] then Finish(q, requestId) else q,
     AsFrames(BundleFor(env, p.history, peerIds, requestId, requester)))
  }

  /** The request a bundle id belongs to: what stands before its first colon. */
  function RequestOf(id: string): string { if id == "" || id[0] == ':' then "" else [id[0]] + RequestOf(id[1..]) }

  ghost function Handle(env: Env, p: Party, f: Frame): (Party, seq<Frame>) {
    match f
    case Accept(rid, ids) =>
      if !DecodesIds(ids) || p.session != Some(Session(rid, true)) then (p, [])
      else
        var r := PushStep(env, p, rid, ids);
        (r.0, [PeerIds(rid, Listing(p.history.Keys))] + r.1)
    case PeerIds(rid, ids) =>
      if !DecodesIds(ids) || p.session != Some(Session(rid, false)) then (p, []) else PushStep(env, p, rid, ids)
    case Reject(rid) =>
      (if p.session.Some? && p.session.value.requestId == rid then p.(session := None) else p, [])
    case Piece(c) =>
      var r := ReceiveStep(p.pending, c);
      var q := p.(pending := r.0);
      (if r.1.Complete? then Apply(env, q, RequestOf(c.id), r.1.blob) else q, [])
  }

  /** A bundle has come: its messages are merged, or it cannot be read. */
  function Apply(env: Env, p: Party, requestId: string, blob: Bytes): Party {
    match env.packing.unpack(blob)
    case None => p.(session := None)
    case Some(items) =>
      Finish(p.(history := Merge(p.history, Readable(env.checks, items)), expected := p.expected[requestId := 0]),
             requestId)
  }

  // ---- Frames out of place ------------------------------------------------

  /** An accept or a list of ids is heeded only in the session it belongs to and in the role it is for;
      any other one changes nothing and is not answered. A refusal of the running request ends its session;
      one of another request changes nothing. */
  lemma StraysIgnored(env: Env, p: Party, rid: string, ids: seq<string>)
    ensures p.session != Some(Session(rid, true)) ==> Handle(env, p, Accept(rid, ids)) == (p, [])
    ensures p.session != Some(Session(rid, false)) ==> Handle(env, p, PeerIds(rid, ids)) == (p, [])
    ensures "" in ids ==> Handle(env, p, Accept(rid, ids)) == (p, []) == Handle(env, p, PeerIds(rid, ids))
    ensures Handle(env, p, Reject(rid)).1 == []
    ensures Handle(env, p, Reject(rid)).0
            == if p.session.Some? && p.session.value.requestId == rid then p.(session := None) else p
  {
    hide PushStep;
  }

  /** A chunk touches the history only if it completes a bundle that can be read; one that cannot be read ends
      the session. */
  lemma ChunkTouches(env: Env, p: Party, c: Chunk)
    ensures var r := ReceiveStep(p.pending, c);
            var q := Handle(env, p, Piece(c)).0;
            && q.pending == r.0
            && (!r.1.Complete? ==> q == p.(pending := r.0))
            && (r.1.Complete? && env.packing.unpack(r.1.blob).None? ==> q == p.(pending := r.0, session := None))
            && (r.1.Complete? && env.packing.unpack(r.1.blob).Some? ==>
                  q.history == Merge(p.history, Readable(env.checks, env.packing.unpack(r.1.blob).value)))
  {
    hide ReceiveStep, Merge, Readable;
  }

  /** One room's side of history sync: the store, the resync state and the mismatch flag. */
  class RoomSync {
    const env: Env
    const receiver: HistoryReceiver
    var history: History
    var session: Option<Session>
    var expected: map<string, nat>
    var peerHash: Option<Digest>
    var mismatch: bool

    ghost function State(): Party
      reads this, receiver
    {
      Party(history, receiver.pending, session, expected)
    }

    constructor (env: Env, history: History)
      ensures this.env == env && fresh(receiver)
      ensures State() == Party(history, map[], None, map[]) && peerHash == None && !mismatch
    {
      this.env, this.history := env, history;
      receiver := new HistoryReceiver();
      session, expected, peerHash, mismatch := None, map[], None, false;
    }

    /** listMessages: the store's rows, sorted by id. */
    method ListMessages() returns (ids: seq<string>, ms: seq<Message>)
      ensures ids == Listing(history.Keys) && ms == Listed(history)
    {
      ids := [];
      var todo := history.Keys;
      while todo != {}
        invariant todo <= history.Keys && Ascending(ids) && Elems(ids) == history.Keys - todo
        decreases todo
      {
        var id :| id in todo;
        assert id !in Elems(ids);
        InsertAscends(id, ids);
        ids := Insert(id, ids);
        todo := todo - {id};
      }
      AscendingUnique(ids, Listing(history.Keys));
      ms := [];
      for k := 0 to |ids|
        invariant |ms| == k && forall i :: 0 <= i < k ==> ms[i] == Listed(history)[i]
      {
        ms := ms + [history[ids[k]]];
      }
    }

    method MergeMessages(ms: seq<Message>)
      modifies this`history
      ensures history == Merge(old(history), ms)
    {
      ghost var was := history;
      var seen := history.Keys;
      for k := 0 to |ms|
        invariant seen == history.Keys && history == Merge(was, ms[..k])
      {
        assert ms[..k + 1][..k] == ms[..k];
        if ms[k].id !in seen {
          history := history[ms[k].id := ms[k]];
          seen := seen + {ms[k].id};
        }
      }
      assert ms[..|ms|] == ms;
    }

    /** The peer's digest has come: the flag says whether the histories look different. */
    method OnPeerDigest(hash: Digest)
      modifies this`peerHash, this`mismatch
      ensures peerHash == Some(hash)
      ensures mismatch <==> IdHash(Listing(history.Keys)) != hash
    {
      peerHash := Some(hash);
      var ids, _ := ListMessages();
      mismatch := IdHash(ids) != hash;
    }

    /** The digest sent, if anyone is there to hear it. */
    method PublishDigest(reachable: bool) returns (sent: Option<Digest>)
      modifies this`mismatch
      ensures sent == if reachable then Some(IdHash(Listing(history.Keys))) else None
      ensures mismatch == if reachable && peerHash.Some? then IdHash(Listing(history.Keys)) != peerHash.value
                          else old(mismatch)
    {
      if !reachable { return None; }
      var ids, _ := ListMessages();
      sent := Some(IdHash(ids));
      if peerHash.Some? { mismatch := IdHash(ids) != peerHash.value; }
    }

    method FinishResyncIfDone(requestId: string)
      modifies this`expected, this`session
      ensures State() == Finish(old(State()), requestId)
    {
      var due := if requestId in expected then expected[requestId] else 0;
      if due > 0 { return; }
      expected := expected - {requestId};
      session := None;
    }

    method RunDifferentialPush(requestId: string, peerIds: seq<string>) returns (sent: seq<Frame>)
      modifies this`expected, this`session
      ensures (State(), sent) == PushStep(env, old(State()), requestId, peerIds)
    {
      hide Finish, Pieces, PushList;
      var myIds, myMsgs := ListMessages();
      var onlyMine := IdsOnlyInA(myIds, peerIds);
      var onlyTheirs := IdsOnlyInA(peerIds, myIds);
      var requester := session.None? || session.value.requester;
      expected := expected[requestId := if |onlyTheirs| > 0 then 1 else 0];
      var toSend := FilterMessagesByIds(myMsgs, onlyMine);
      assert toSend == PushList(history, peerIds) by { PushListIs(history, peerIds); }
      var compressed := env.packing.pack(ToWires(toSend));
      var _, chunks := SplitHistoryChunks(BundleId(requestId, requester), compressed, CHUNK_BYTES);
      sent := [];
      for k := 0 to |chunks|
        invariant |sent| == k && forall i :: 0 <= i < k ==> sent[i] == Piece(chunks[i])
      {
        sent := sent + [Piece(chunks[k])];
      }
      assert sent == AsFrames(chunks);
      if |onlyTheirs| == 0 { FinishResyncIfDone(requestId); }
    }

    /** respondResync: `asked` is the request the user was asked about. */
    method RespondResync(asked: string, accept: bool) returns (sent: Frame)
      modifies this`session
      ensures sent == if accept then Accept(asked, Listing(history.Keys)) else Reject(asked)
      ensures session == if accept then Some(Session(asked, false)) else old(session)
    {
      if !accept { return Reject(asked); }
      var ids, _ := ListMessages();
      session := Some(Session(asked, false));
      sent := Accept(asked, ids);
    }

    /** One frame from the peer. */
    method OnFrame(f: Frame) returns (sent: seq<Frame>)
      modifies this, receiver
      ensures (State(), sent) == Handle(env, old(State()), f)
      ensures peerHash == old(peerHash) && mismatch == old(mismatch)
    {
      hide PushStep, Finish, ReceiveStep;
      sent := [];
      match f
      case Accept(rid, ids) =>
        if "" in ids || session != Some(Session(rid, true)) { return; }
        var myIds, _ := ListMessages();
        var pushed := RunDifferentialPush(rid, ids);
        sent := [PeerIds(rid, myIds)] + pushed;
      case PeerIds(rid, ids) =>
        if "" in ids || session != Some(Session(rid, false)) { return; }
        sent := RunDifferentialPush(rid, ids);
      case Reject(rid) =>
        if session.Some? && session.value.requestId == rid { session := None; }
      case Piece(c) =>
        var r := receiver.HandleHistoryChunk(c);
        if r.Complete? { ApplyBundle(RequestOf(c.id), r.blob); }
    }

    method ApplyBundle(requestId: string, blob: Bytes)
      modifies this
      ensures State() == Apply(env, old(State()), requestId, blob)
      ensures receiver.pending == old(receiver.pending) && peerHash == old(peerHash) && mismatch == old(mismatch)
    {
      var items := env.packing.unpack(blob);
      if items.None? {
        session := None;
        return;
      }
      var incoming := UnpackMessages(env.checks, items.value);
      MergeMessages(incoming);
      expected := expected[requestId := 0];
      FinishResyncIfDone(requestId);
    }
  }

  lemma PushListIs(h: History, peerIds: seq<string>)
    ensures PushList(h, peerIds) == FilterMessagesByIds(Listed(h), IdsOnlyInA(Listing(h.Keys), peerIds))
  {
  }

  /** After a digest from a peer whose ids are `theirs`, the mismatch flag is down exactly when
      both hold the same ids, but for the one collision. */
  lemma FlagMeaning(h: History, theirs: set<string>)
    requires PlainIds(h.Keys) && PlainIds(theirs)
    ensures IdHash(Listing(h.Keys)) == IdHash(Listing(theirs)) <==> h.Keys == theirs || EmptyOrBlank(h.Keys, theirs)
  {
    AscendingDistinct(Listing(h.Keys));
    AscendingDistinct(Listing(theirs));
    DigestsEqualIff(Listing(h.Keys), Listing(theirs));
  }

  lemma AscendingDistinct(s: seq<string>)
    requires Ascending(s)
    ensures Distinct(s)
  {
    forall i, j | 0 <= i < j < |s| ensures s[i] != s[j] { Trichotomy(s[i], s[j]); }
  }
}
