/** Stored messages and the JSON they are exported and synchronised as
    (web/src/lib/crypto/backup.ts, web/src/lib/crypto/history-sync.ts). */
module Wires {
  import opened Chunking
  import opened Wrappers

  datatype Side = Self | Peer {
    function Flip(): Side { if Self? then Peer else Self }

    function Name(): string { if Self? then "self" else "peer" }
  }

  datatype Reply = Reply(id: string, preview: string)

  datatype Message =
    | Text(id: string, from: Side, ts: int, replyTo: Option<Reply>, body: string)
    | Image(id: string, from: Side, ts: int, replyTo: Option<Reply>, mime: string, data: Bytes,
            w: Option<int>, h: Option<int>)
    | File(id: string, from: Side, ts: int, replyTo: Option<Reply>, name: string, mime: string, data: Bytes)

  /** Property names. */
  datatype Key =
    | VKey | TsKey | IdKey | FromKey | TypeKey | BodyKey | NameKey | MimeKey | DataKey
    | WKey | HKey | ReplyKey | PreviewKey | OtherKey(name: string)

  /** A parsed JSON value. `Base64` is the string that encodes those bytes (the empty string for
      none); `Other` is null, a boolean or an array. */
  datatype Json =
    | Undefined
    | Num(n: int)
    | Str(s: string)
    | Base64(bytes: Bytes)
    | Obj(fields: map<Key, Json>)
    | Other
  {
    function Field(f: Key): Json { if Obj? && f in fields then fields[f] else Undefined }
  }

  /** The two string checks that are regular expressions: isValidMime and sanitizeFileName. */
  datatype Checks = Checks(validMime: string -> bool, sanitize: string -> string)

  predicate ImageMime(m: string) { m in ["image/jpeg", "image/png", "image/webp", "image/gif"] }

  /** Sets a property, unless there is nothing to set. */
  function With(o: Json, k: Key, v: Json): (r: Json)
    requires o.Obj?
    ensures r.Obj?
    ensures forall f {:trigger r.Field(f)} :: r.Field(f) == if f == k && v != Undefined then v else o.Field(f)
  {
    if v == Undefined then o else Obj(o.fields[k := v])
  }

  function ReplyJson(r: Option<Reply>): Json {
    if r.None? then Undefined else With(With(Obj(map[]), IdKey, Str(r.value.id)), PreviewKey, Str(r.value.preview))
  }

  function NumJson(n: Option<int>): Json { if n.None? then Undefined else Num(n.value) }

  /** The properties every kind of message has. */
  function Common(m: Message, kind: string): (o: Json)
    ensures o.Obj? && o.Field(WKey) == o.Field(HKey) == Undefined
  {
    With(With(With(With(With(With(Obj(map[]), VKey, Num(1)), TsKey, Num(m.ts)), IdKey, Str(m.id)),
                   FromKey, Str(m.from.Name())), TypeKey, Str(kind)), ReplyKey, ReplyJson(m.replyTo))
  }

  function ToWire(m: Message): Json {
    match m
    case File(_, _, _, _, name, mime, data) =>
      With(With(With(Common(m, "file"), NameKey, Str(name)), MimeKey, Str(mime)), DataKey, Base64(data))
    case Image(_, _, _, _, mime, data, w, h) =>
      With(With(With(With(Common(m, "image"), MimeKey, Str(mime)), DataKey, Base64(data)), WKey, NumJson(w)),
           HKey, NumJson(h))
    case Text(_, _, _, _, body) =>
      With(Common(m, "text"), BodyKey, Str(body))
  }

  function ParseReply(raw: Json): Option<Reply> {
    var id, preview := raw.Field(IdKey), raw.Field(PreviewKey);
    if id.Str? && id.s != "" && preview.Str? then Some(Reply(id.s, preview.s)) else None
  }

  function NumOf(j: Json): Option<int> { if j.Num? then Some(j.n) else None }

  function BytesOf(j: Json): Bytes { if j.Base64? then j.bytes else [] }

  /** An image's fields, read back. */
  function ImageOf(raw: Json, id: string, from: Side): Option<Message> {
    var ts, mime, data := raw.Field(TsKey), raw.Field(MimeKey), BytesOf(raw.Field(DataKey));
    if !ts.Num? || !mime.Str? || !ImageMime(mime.s) || data == [] || |data| > MAX_TRANSFER_BYTES then None
    else Some(Image(id, from, ts.n, ParseReply(raw.Field(ReplyKey)), mime.s, data,
                    NumOf(raw.Field(WKey)), NumOf(raw.Field(HKey))))
  }

  function FileOf(checks: Checks, raw: Json, id: string, from: Side): Option<Message> {
    var ts, mime, data := raw.Field(TsKey), raw.Field(MimeKey), BytesOf(raw.Field(DataKey));
    var name := raw.Field(NameKey);
    if !ts.Num? || !mime.Str? || !checks.validMime(mime.s) || |data| > MAX_TRANSFER_BYTES then None
    else Some(File(id, from, ts.n, ParseReply(raw.Field(ReplyKey)),
                   checks.sanitize(if name.Str? then name.s else ""), mime.s, data))
  }

  function TextOf(raw: Json, id: string, from: Side): Option<Message> {
    var ts, body := raw.Field(TsKey), raw.Field(BodyKey);
    if !ts.Num? || !body.Str? then None
    else Some(Text(id, from, ts.n, ParseReply(raw.Field(ReplyKey)), body.s))
  }

  function FromWire(checks: Checks, raw: Json): Option<Message> {
    var id, from, kind := raw.Field(IdKey), raw.Field(FromKey), raw.Field(TypeKey);
    if !raw.Obj? || !id.Str? || !(from == Str("self") || from == Str("peer")) then None
    else
      var side := if from == Str("self") then Self else Peer;
      if kind == Str("image") then ImageOf(raw, id.s, side)
      else if kind == Str("file") then FileOf(checks, raw, id.s, side)
      else if kind == Str("text") then TextOf(raw, id.s, side)
      else None
  }

  // ---- What a message must be to survive ----------------------------------

  predicate Sized(data: Bytes) { |data| <= MAX_TRANSFER_BYTES }

  /** The peer will accept the message at all. */
  predicate Survives(checks: Checks, m: Message) {
    match m
    case Text(_, _, _, _, _) => true
    case Image(_, _, _, _, mime, data, _, _) => ImageMime(mime) && data != [] && Sized(data)
    case File(_, _, _, _, _, mime, data) => checks.validMime(mime) && Sized(data)
  }

  /** ... and unchanged. */
  predicate Exact(checks: Checks, m: Message) {
    && Survives(checks, m)
    && (m.replyTo.Some? ==> m.replyTo.value.id != "")
    && (m.File? ==> checks.sanitize(m.name) == m.name)
  }

  /** What comes of a message that is sent and accepted: an empty reply id loses the quote, and a
      file name is sanitised again. */
  function Cleaned(checks: Checks, m: Message): Message {
    var replyTo := if m.replyTo.Some? && m.replyTo.value.id == "" then None else m.replyTo;
    match m
    case Text(id, from, ts, _, body) => Text(id, from, ts, replyTo, body)
    case Image(id, from, ts, _, mime, data, w, h) => Image(id, from, ts, replyTo, mime, data, w, h)
    case File(id, from, ts, _, name, mime, data) => File(id, from, ts, replyTo, checks.sanitize(name), mime, data)
  }

  lemma ReplySurvives(r: Option<Reply>)
    ensures ParseReply(ReplyJson(r)) == if r.Some? && r.value.id != "" then r else None
  {
  }

  lemma EmptyField(k: Key)
    ensures Obj(map[]).Field(k) == Undefined
  {
  }

  lemma CommonRead(m: Message, kind: string)
    ensures var w := Common(m, kind);
            && w.Field(TsKey) == Num(m.ts) && w.Field(IdKey) == Str(m.id) && w.Field(FromKey) == Str(m.from.Name())
            && w.Field(TypeKey) == Str(kind) && w.Field(ReplyKey) == ReplyJson(m.replyTo)
  {
    EmptyField(ReplyKey);
    hide With, Json.Field, ReplyJson, Side.Name;
  }

  /** The properties of a message's wire form that its kind does not decide. */
  predicate Headed(m: Message, w: Json, kind: string) {
    && w.Obj? && w.Field(TsKey) == Num(m.ts) && w.Field(IdKey) == Str(m.id)
    && w.Field(FromKey) == Str(m.from.Name()) && w.Field(ReplyKey) == ReplyJson(m.replyTo)
    && w.Field(TypeKey) == Str(kind)
  }

  lemma TextRead(m: Message)
    requires m.Text?
    ensures Headed(m, ToWire(m), "text") && ToWire(m).Field(BodyKey) == Str(m.body)
  {
    CommonRead(m, "text");
    hide With, Json.Field, Common, ReplyJson, Side.Name;
  }

  lemma ImageRead(m: Message)
    requires m.Image?
    ensures Headed(m, ToWire(m), "image")
    ensures var w := ToWire(m);
            && w.Field(MimeKey) == Str(m.mime) && w.Field(DataKey) == Base64(m.data)
            && w.Field(WKey) == NumJson(m.w) && w.Field(HKey) == NumJson(m.h)
  {
    CommonRead(m, "image");
    hide With, Json.Field, Common, ReplyJson, Side.Name;
  }

  lemma FileRead(m: Message)
    requires m.File?
    ensures Headed(m, ToWire(m), "file")
    ensures var w := ToWire(m);
            w.Field(MimeKey) == Str(m.mime) && w.Field(DataKey) == Base64(m.data) && w.Field(NameKey) == Str(m.name)
  {
    CommonRead(m, "file");
    hide With, Json.Field, Common, ReplyJson, Side.Name;
  }

  /** Reading the head of a message's wire form. */
  lemma HeadReads(checks: Checks, m: Message, w: Json, kind: string)
    requires Headed(m, w, kind)
    ensures kind == "text" ==> FromWire(checks, w) == TextOf(w, m.id, m.from)
    ensures kind == "image" ==> FromWire(checks, w) == ImageOf(w, m.id, m.from)
    ensures kind == "file" ==> FromWire(checks, w) == FileOf(checks, w, m.id, m.from)
  {
  }

  lemma TextRoundTrip(checks: Checks, m: Message)
    requires m.Text?
    ensures FromWire(checks, ToWire(m)) == Some(Cleaned(checks, m))
  {
    TextRead(m);
    ReplySurvives(m.replyTo);
    HeadReads(checks, m, ToWire(m), "text");
    hide ToWire, FromWire, ReplyJson, ParseReply, Json.Field;
  }

  lemma ImageReads(m: Message, w: Json)
    requires m.Image? && w.Field(TsKey) == Num(m.ts) && w.Field(MimeKey) == Str(m.mime)
    requires w.Field(DataKey) == Base64(m.data) && w.Field(WKey) == NumJson(m.w) && w.Field(HKey) == NumJson(m.h)
    ensures ImageOf(w, m.id, m.from) ==
            if ImageMime(m.mime) && m.data != [] && Sized(m.data)
            then Some(Image(m.id, m.from, m.ts, ParseReply(w.Field(ReplyKey)), m.mime, m.data, m.w, m.h)) else None
  {
  }

  lemma ImageRoundTrip(checks: Checks, m: Message)
    requires m.Image?
    ensures FromWire(checks, ToWire(m)) == if Survives(checks, m) then Some(Cleaned(checks, m)) else None
  {
    ImageRead(m);
    ReplySurvives(m.replyTo);
    ImageReads(m, ToWire(m));
    HeadReads(checks, m, ToWire(m), "image");
    hide ToWire, FromWire, ImageOf, ReplyJson, ParseReply, Json.Field, ImageMime, NumJson, Side.Name;
  }

  lemma FileRoundTrip(checks: Checks, m: Message)
    requires m.File?
    ensures FromWire(checks, ToWire(m)) == if Survives(checks, m) then Some(Cleaned(checks, m)) else None
  {
    FileRead(m);
    ReplySurvives(m.replyTo);
    HeadReads(checks, m, ToWire(m), "file");
    hide ToWire, FromWire, ReplyJson, ParseReply, Json.Field;
  }

  /** Sending a message and reading it back: exactly which ones survive, and as what. */
  lemma WireRoundTrip(checks: Checks, m: Message)
    ensures FromWire(checks, ToWire(m)) == if Survives(checks, m) then Some(Cleaned(checks, m)) else None
  {
    match m
    case Text(_, _, _, _, _) => TextRoundTrip(checks, m);
    case Image(_, _, _, _, _, _, _, _) => ImageRoundTrip(checks, m);
    case File(_, _, _, _, _, _, _) => FileRoundTrip(checks, m);
  }

  /** The round trip is exact on exactly the messages that meet the checks. */
  lemma WireRoundTripExact(checks: Checks, m: Message)
    ensures FromWire(checks, ToWire(m)) == Some(m) <==> Exact(checks, m)
  {
    WireRoundTrip(checks, m);
    hide ToWire, FromWire;
  }

  /** Whatever JSON is read, an accepted message can be sent on: it survives again, and unchanged
      unless its name sanitises once more to something else. */
  lemma AcceptedIsSendable(checks: Checks, raw: Json)
    requires FromWire(checks, raw).Some?
    ensures var m := FromWire(checks, raw).value;
            && Survives(checks, m) && raw.Field(IdKey) == Str(m.id)
            && (Exact(checks, m) <==> (m.File? ==> checks.sanitize(m.name) == m.name))
  {
  }

  function Flip(m: Message): Message {
    match m
    case Text(id, from, ts, replyTo, body) => Text(id, from.Flip(), ts, replyTo, body)
    case Image(id, from, ts, replyTo, mime, data, w, h) => Image(id, from.Flip(), ts, replyTo, mime, data, w, h)
    case File(id, from, ts, replyTo, name, mime, data) => File(id, from.Flip(), ts, replyTo, name, mime, data)
  }

  lemma FlipIsInvolution(m: Message)
    ensures Flip(Flip(m)) == m && Flip(m) != m && Flip(m).id == m.id
  {
  }

  /** It changes the sender's side and nothing else. */
  lemma FlipIs(m: Message)
    ensures Flip(m) == m.(from := if m.from == Side.Self then Side.Peer else Side.Self)
  {
  }

  /** What has become of a message that came over: the same message, field by field, but from the other
      side, without a quote of nothing, and with its file name sanitised again. */
  predicate Arrived(checks: Checks, sent: Message, got: Message) {
    && got.id == sent.id && got.ts == sent.ts
    && got.from == (if sent.from == Side.Self then Side.Peer else Side.Self)
    && got.replyTo == (if sent.replyTo.Some? && sent.replyTo.value.id == "" then None else sent.replyTo)
    && (sent.Text? ==> got.Text? && got.body == sent.body)
    && (sent.Image? ==>
          got.Image? && got.mime == sent.mime && got.data == sent.data && got.w == sent.w && got.h == sent.h)
    && (sent.File? ==>
          got.File? && got.name == checks.sanitize(sent.name) && got.mime == sent.mime && got.data == sent.data)
  }

  lemma ArrivedIff(checks: Checks, sent: Message, got: Message)
    ensures Arrived(checks, sent, got) <==> got == Flip(Cleaned(checks, sent))
  {
  }

  // ---- What is written, and what is accepted ------------------------------

  /** The wire form of a message, property by property. */
  lemma WrittenIs(m: Message)
    ensures var w := ToWire(m);
            && w.Obj? && w.Field(VKey) == Num(1) && w.Field(TsKey) == Num(m.ts) && w.Field(IdKey) == Str(m.id)
            && w.Field(FromKey) == Str(if m.from == Side.Self then "self" else "peer")
            && w.Field(TypeKey) == Str(match m case Text(_, _, _, _, _) => "text" case Image(_, _, _, _, _, _, _, _) => "image"
                                               case File(_, _, _, _, _, _, _) => "file")
            && (w.Field(ReplyKey) == Undefined <==> m.replyTo.None?)
            && (m.replyTo.Some? ==> w.Field(ReplyKey).Field(IdKey) == Str(m.replyTo.value.id)
                                    && w.Field(ReplyKey).Field(PreviewKey) == Str(m.replyTo.value.preview))
  {
    if m.Text? { TextRead(m); }
    if m.Image? { ImageRead(m); }
    if m.File? { FileRead(m); }
    hide ToWire, With;
    VersionWritten(m);
    ReplyWritten(m.replyTo);
  }

  lemma ReplyWritten(r: Option<Reply>)
    ensures ReplyJson(r) == Undefined <==> r.None?
    ensures r.Some? ==> ReplyJson(r).Field(IdKey) == Str(r.value.id) && ReplyJson(r).Field(PreviewKey) == Str(r.value.preview)
  {
  }

  lemma VersionWritten(m: Message)
    ensures ToWire(m).Field(VKey) == Num(1)
  {
    CommonVersion(m, "text");
    CommonVersion(m, "image");
    CommonVersion(m, "file");
    hide Common, With, Json.Field, NumJson;
  }

  lemma CommonVersion(m: Message, kind: string)
    ensures Common(m, kind).Field(VKey) == Num(1)
  {
    EmptyField(VKey);
    hide With, Json.Field, ReplyJson, Side.Name;
  }

  /** Exactly which JSON is read as a message: an object with an id, a side and one of the three kinds,
      with what its kind demands. */
  lemma AcceptedIff(checks: Checks, raw: Json)
    ensures FromWire(checks, raw).Some? <==>
            && raw.Obj? && raw.Field(IdKey).Str? && raw.Field(TsKey).Num?
            && (raw.Field(FromKey) == Str("self") || raw.Field(FromKey) == Str("peer"))
            && ((raw.Field(TypeKey) == Str("text") && raw.Field(BodyKey).Str?)
                || (raw.Field(TypeKey) == Str("file") && raw.Field(MimeKey).Str? && checks.validMime(raw.Field(MimeKey).s)
                   && |BytesOf(raw.Field(DataKey))| <= 10 * 1024 * 1024)
                || (raw.Field(TypeKey) == Str("image")
                   && raw.Field(MimeKey) in {Str("image/jpeg"), Str("image/png"), Str("image/webp"), Str("image/gif")}
                   && 0 < |BytesOf(raw.Field(DataKey))| <= 10 * 1024 * 1024))
  {
    hide Json.Field, BytesOf, ParseReply, NumOf;
  }

  /** ... and as what: the kind, the side and the fields it names. */
  lemma AcceptedIs(checks: Checks, raw: Json)
    requires FromWire(checks, raw).Some?
    ensures var m := FromWire(checks, raw).value;
            && raw.Field(IdKey) == Str(m.id) && raw.Field(TsKey) == Num(m.ts)
            && raw.Field(FromKey) == Str(if m.from == Side.Self then "self" else "peer")
            && (m.Text? ==> raw.Field(TypeKey) == Str("text") && raw.Field(BodyKey) == Str(m.body))
            && (m.Image? ==> raw.Field(TypeKey) == Str("image") && raw.Field(MimeKey) == Str(m.mime))
            && (m.File? ==> raw.Field(TypeKey) == Str("file") && raw.Field(MimeKey) == Str(m.mime))
            && (m.Image? || m.File? ==>
                  m.data == (if raw.Field(DataKey).Base64? then raw.Field(DataKey).bytes else []))
  {
    hide Json.Field, ParseReply, NumOf;
  }

  // ---- Bundles of messages ------------------------------------------------

  /** JSON and gzip, one after the other: some bytes for a list of wire messages. */
  datatype Packing = Packing(pack: seq<Json> -> Bytes, unpack: Bytes -> Option<seq<Json>>) {
    ghost predicate Inverse() { forall js :: unpack(pack(js)) == Some(js) }
  }

  function ToWires(ms: seq<Message>): (js: seq<Json>)
    ensures |js| == |ms|
  {
    seq(|ms|, i requires 0 <= i < |ms| => ToWire(ms[i]))
  }

  /** The messages among the items, for the receiving side. */
  function Readable(checks: Checks, items: seq<Json>): seq<Message> {
    if items == [] then []
    else
      var m := FromWire(checks, items[|items| - 1]);
      Readable(checks, items[..|items| - 1]) + if m.Some? then [Flip(m.value)] else []
  }

  /** unpackMessagesFromSync on the parsed list. */
  method UnpackMessages(checks: Checks, items: seq<Json>) returns (out: seq<Message>)
    ensures out == Readable(checks, items)
  {
    out := [];
    for k := 0 to |items|
      invariant out == Readable(checks, items[..k])
    {
      assert items[..k + 1][..k] == items[..k];
      var m := FromWire(checks, items[k]);
      if m.Some? { out := out + [Flip(m.value)]; }
    }
    assert items[..|items|] == items;
  }

  /** Items are read one by one, in order. */
  lemma {:induction false} ReadableInOrder(checks: Checks, xs: seq<Json>, ys: seq<Json>)
    ensures Readable(checks, xs + ys) == Readable(checks, xs) + Readable(checks, ys)
    decreases |ys|
  {
    hide FromWire, Flip;
    if ys == [] {
      assert xs + ys == xs;
    } else {
      var n := |ys| - 1;
      assert (xs + ys)[..|xs| + n] == xs + ys[..n] && (xs + ys)[|xs| + n] == ys[n];
      ReadableInOrder(checks, xs, ys[..n]);
    }
  }

  /** A sent message is read as what has arrived of it, or not at all. */
  lemma ReadableOne(checks: Checks, m: Message)
    ensures if Survives(checks, m)
            then exists got :: Arrived(checks, m, got) && Readable(checks, [ToWire(m)]) == [got]
            else Readable(checks, [ToWire(m)]) == []
  {
    WireRoundTrip(checks, m);
    ArrivedIff(checks, m, Flip(Cleaned(checks, m)));
    hide FromWire, Flip, ToWire, Cleaned, Survives, Arrived;
    var one := [ToWire(m)];
    assert one[..0] == [] && Readable(checks, one[..0]) == [];
    assert Readable(checks, one) == if Survives(checks, m) then [Flip(Cleaned(checks, m))] else [];
  }

  /** What the peer reads from a bundle: the surviving messages, cleaned and seen from its side. */
  lemma {:induction false} ReadableMembers(checks: Checks, ms: seq<Message>, x: Message)
    ensures x in Readable(checks, ToWires(ms)) <==>
            exists k :: 0 <= k < |ms| && Survives(checks, ms[k]) && x == Flip(Cleaned(checks, ms[k]))
  {
    hide Cleaned, Survives, FromWire, ToWire, Flip;
    if ms != [] {
      var n := |ms| - 1;
      assert ToWires(ms)[..n] == ToWires(ms[..n]);
      ReadableMembers(checks, ms[..n], x);
      WireRoundTrip(checks, ms[n]);
      assert Readable(checks, ToWires(ms)) == Readable(checks, ToWires(ms[..n])) +
             if Survives(checks, ms[n]) then [Flip(Cleaned(checks, ms[n]))] else [];
    }
  }
}
