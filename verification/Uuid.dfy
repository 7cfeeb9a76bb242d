/** Time-ordered message ids (web/src/lib/crypto/id.ts): UUID version 7, section 5.7 of RFC 9562. */
module Uuids {
  import opened Chunking
  import opened Strings

  const SEQUENCES: nat := 0x1000
  /** The 48-bit timestamp field ends here. */
  const FIELD_END: nat := 0x1_0000_0000_0000

  /** lastMs and lastSeq. */
  datatype Stamp = Stamp(ms: int, sequence: nat)

  /** How a call at `now` moves the stamp; `random` is a fresh 12-bit number. */
  function Next(s: Stamp, now: int, random: nat): Stamp {
    if now != s.ms then Stamp(now, random)
    else
      var q := (s.sequence + 1) % SEQUENCES;
      Stamp(if q == 0 then now + 1 else now, q)
  }

  /** The last n bytes of v, most significant first. */
  function BigEndian(v: nat, n: nat): (b: Bytes)
    ensures |b| == n
  {
    if n == 0 then [] else BigEndian(v / 256, n - 1) + [(v % 256) as byte]
  }

  type Rand = b: Bytes | |b| == 8 witness [0, 0, 0, 0, 0, 0, 0, 0]

  /** Version 7 over the sequence's high four bits. */
  function Version(q: nat): byte
    requires q < SEQUENCES
  {
    (0x70 + q / 256) as byte
  }

  /** Variant bits 10 over six random bits. */
  function Variant(r: byte): byte { (0x80 + r as int % 0x40) as byte }

  /** The sixteen bytes of an id: timestamp, version 7 and sequence, variant and random bits. */
  function Layout(s: Stamp, rand: Rand): (b: Bytes)
    requires 0 <= s.ms && s.sequence < SEQUENCES
    ensures |b| == 16
  {
    BigEndian(s.ms, 6) + [Version(s.sequence), Octet(s.sequence, 1)] + [Variant(rand[0])] + rand[1..]
  }

  function Digit(d: nat): char
    requires d < 16
  {
    "0123456789abcdef"[d]
  }

  function Hex(b: byte): (s: string)
    ensures |s| == 2
  {
    [Digit(b as int / 16), Digit(b as int % 16)]
  }

  predicate DashBefore(i: nat) { i == 4 || i == 6 || i == 8 || i == 10 }

  /** The text of bytes i and up, with the dashes of section 4 of RFC 9562. */
  function Text(b: Bytes, i: nat): string
    requires i <= |b|
    decreases |b| - i
  {
    if i == |b| then "" else (if DashBefore(i) then "-" else "") + (Hex(b[i]) + Text(b, i + 1))
  }

  function Id(s: Stamp, rand: Rand): string
    requires 0 <= s.ms && s.sequence < SEQUENCES
  {
    Text(Layout(s, rand), 0)
  }

  function JoinParts(parts: seq<string>): string { if parts == [] then "" else parts[0] + JoinParts(parts[1..]) }

  lemma Append3(a: string, b: string, c: string)
    ensures a + (b + c) == a + b + c
  {
  }

  lemma {:induction false} JoinedBytes(hex: seq<string>, b: Bytes, i: nat, j: nat)
    requires i < j <= |hex| == |b| && forall k :: 0 <= k < |b| ==> hex[k] == Hex(b[k])
    requires forall k :: i < k < j ==> !DashBefore(k)
    ensures Text(b, i) == (if DashBefore(i) then "-" else "") + (JoinParts(hex[i..j]) + Text(b, j))
    decreases j - i
  {
    hide Hex;
    assert hex[i..j][1..] == hex[i + 1..j] && hex[i..j][0] == hex[i];
    assert JoinParts(hex[i..j]) == hex[i] + JoinParts(hex[i + 1..j]);
    if i + 1 < j {
      JoinedBytes(hex, b, i + 1, j);
      NoPrefix(JoinParts(hex[i + 1..j]) + Text(b, j));
    } else {
      assert hex[i + 1..j] == [];
      NoPrefix(Text(b, j));
    }
    Append3(hex[i], JoinParts(hex[i + 1..j]), Text(b, j));
  }

  lemma NoPrefix(s: string)
    ensures "" + s == s
  {
  }

  method BytesToUuid(bytes: array<byte>) returns (s: string)
    requires bytes.Length == 16
    ensures s == Text(bytes[..], 0)
  {
    var hex: seq<string> := [];
    for i := 0 to 16
      invariant |hex| == i && forall k :: 0 <= k < i ==> hex[k] == Hex(bytes[k])
    {
      hex := hex + [Hex(bytes[i])];
    }
    s := JoinParts(hex[0..4]) + "-" + JoinParts(hex[4..6]) + "-" + JoinParts(hex[6..8]) + "-" + JoinParts(hex[8..10])
         + "-" + JoinParts(hex[10..16]);
    Dashes(hex, bytes[..]);
  }

  lemma TextEnd(b: Bytes)
    ensures Text(b, |b|) == ""
  {
  }

  lemma Regroup(a: string, b: string, c: string, d: string, e: string)
    ensures a + "-" + b + "-" + c + "-" + d + "-" + e
            == a + ("-" + (b + ("-" + (c + ("-" + (d + ("-" + (e + ""))))))))
  {
  }

  lemma Dashes(hex: seq<string>, b: Bytes)
    requires |hex| == |b| == 16 && forall k :: 0 <= k < 16 ==> hex[k] == Hex(b[k])
    ensures Text(b, 0) == JoinParts(hex[0..4]) + "-" + JoinParts(hex[4..6]) + "-" + JoinParts(hex[6..8]) + "-"
                          + JoinParts(hex[8..10]) + "-" + JoinParts(hex[10..16])
  {
    hide Text, JoinParts, Hex;
    JoinedBytes(hex, b, 0, 4);
    JoinedBytes(hex, b, 4, 6);
    JoinedBytes(hex, b, 6, 8);
    JoinedBytes(hex, b, 8, 10);
    JoinedBytes(hex, b, 10, 16);
    TextEnd(b);
    Regroup(JoinParts(hex[0..4]), JoinParts(hex[4..6]), JoinParts(hex[6..8]), JoinParts(hex[8..10]), JoinParts(hex[10..16]));
    assert "" + (JoinParts(hex[0..4]) + Text(b, 4)) == JoinParts(hex[0..4]) + Text(b, 4);
  }

  class IdSource {
    var lastMs: int
    var lastSeq: nat

    ghost function State(): Stamp
      reads this
    {
      Stamp(lastMs, lastSeq)
    }

    constructor ()
      ensures State() == Stamp(-1, 0)
    {
      lastMs, lastSeq := -1, 0;
    }

    /** uuidV7, given the clock and the random numbers it draws. */
    method UuidV7(now: nat, random: nat, rand: Rand) returns (id: string)
      requires lastSeq < SEQUENCES && random < SEQUENCES
      modifies this
      ensures State() == Next(old(State()), now, random) && lastSeq < SEQUENCES
      ensures lastMs >= 0 && id == Id(State(), rand)
    {
      var ms := now;
      if ms == lastMs {
        lastSeq := (lastSeq + 1) % SEQUENCES;
        if lastSeq == 0 { ms := ms + 1; }
      } else {
        lastMs := ms;
        lastSeq := random;
      }
      lastMs := ms;

      var bytes := Pack(ms, lastSeq, rand);
      id := BytesToUuid(bytes);
    }
  }

  /** The bytes of an id, written one by one. */
  method Pack(ms: nat, lastSeq: nat, rand: Rand) returns (bytes: array<byte>)
    requires lastSeq < SEQUENCES
    ensures bytes[..] == Layout(Stamp(ms, lastSeq), rand)
  {
    bytes := new byte[16];
    hide Octet, Text, BigEndian, Version, Variant;
    bytes[0] := Octet(ms, 0x100_0000_0000);
    bytes[1] := Octet(ms, 0x1_0000_0000);
    bytes[2] := Octet(ms, 0x100_0000);
    bytes[3] := Octet(ms, 0x1_0000);
    bytes[4] := Octet(ms, 0x100);
    bytes[5] := Octet(ms, 1);
    bytes[6] := Version(lastSeq);
    bytes[7] := Octet(lastSeq, 1);
    bytes[8] := Variant(rand[0]);
    forall k | 0 <= k < 7 { bytes[9 + k] := rand[1 + k]; }
    SixBytes(ms);
    assert bytes[..6] == BigEndian(ms, 6);
    assert bytes[..] == bytes[..6] + [bytes[6], bytes[7]] + [bytes[8]] + rand[1..];
  }

  /** The low byte of v / d: of the bit operations of the source on a whole quotient. */
  function Octet(v: nat, d: nat): byte
    requires d >= 1
  {
    (v / d % 256) as byte
  }

  lemma Quotients(v: nat)
    ensures v / 0x100 / 256 == v / 0x1_0000
    ensures v / 0x1_0000 / 256 == v / 0x100_0000
    ensures v / 0x100_0000 / 256 == v / 0x1_0000_0000
    ensures v / 0x1_0000_0000 / 256 == v / 0x100_0000_0000
  {
  }

  lemma LowByte(v: nat, n: nat)
    ensures BigEndian(v, n + 1) == BigEndian(v / 256, n) + [Octet(v, 1)]
  {
  }

  lemma OctetShift(v: nat, d: nat)
    requires d >= 1
    ensures Octet(v / d, 1) == Octet(v, d)
  {
  }

  lemma SixBytes(v: nat)
    ensures BigEndian(v, 6) == [Octet(v, 0x100_0000_0000), Octet(v, 0x1_0000_0000), Octet(v, 0x100_0000),
                                Octet(v, 0x1_0000), Octet(v, 0x100), Octet(v, 1)]
  {
    Quotients(v);
    LowByte(v, 5);
    LowByte(v / 0x100, 4);
    LowByte(v / 0x1_0000, 3);
    LowByte(v / 0x100_0000, 2);
    LowByte(v / 0x1_0000_0000, 1);
    LowByte(v / 0x100_0000_0000, 0);
    OctetShift(v, 0x100);
    OctetShift(v, 0x1_0000);
    OctetShift(v, 0x100_0000);
    OctetShift(v, 0x1_0000_0000);
    OctetShift(v, 0x100_0000_0000);
    assert BigEndian(v / 0x100_0000_0000 / 256, 0) == [];
    hide BigEndian, Octet;
  }

  // ---- Order --------------------------------------------------------------

  predicate LessAt(b: Bytes, c: Bytes, k: nat) { |b| == |c| && k < |b| && b[..k] == c[..k] && b[k] < c[k] }

  lemma DigitsOrdered(a: nat, b: nat)
    requires a < b < 16
    ensures Digit(a) < Digit(b)
  {
  }

  lemma HexOrdered(b: byte, c: byte)
    requires b < c
    ensures Less(Hex(b), Hex(c))
  {
    if b as int / 16 < c as int / 16 {
      DigitsOrdered(b as int / 16, c as int / 16);
      hide Digit;
    } else {
      DigitsOrdered(b as int % 16, c as int % 16);
      assert Less(Hex(b)[1..], Hex(c)[1..]);
      hide Digit;
    }
  }

  lemma {:induction false} TextLength(b: Bytes, c: Bytes, i: nat)
    requires i <= |b| == |c|
    ensures |Text(b, i)| == |Text(c, i)|
    decreases |b| - i
  {
    hide Hex;
    if i < |b| { TextLength(b, c, i + 1); }
  }

  /** The text of an id keeps the order of its bytes. */
  lemma {:induction false} TextOrdered(b: Bytes, c: Bytes, k: nat, i: nat)
    requires LessAt(b, c, k) && i <= k
    ensures Less(Text(b, i), Text(c, i))
    decreases k - i
  {
    hide Hex, Less;
    if i == k {
      HexOrdered(b[k], c[k]);
      TextLength(b, c, k + 1);
      LessBefore(Hex(b[k]), Hex(c[k]), Text(b, k + 1), Text(c, k + 1));
    } else {
      TextOrdered(b, c, k, i + 1);
      assert b[i] == b[..k][i] == c[i];
      LessAfter(Hex(b[i]), Text(b, i + 1), Text(c, i + 1));
    }
    var dash := if DashBefore(i) then "-" else "";
    LessAfter(dash, Hex(b[i]) + Text(b, i + 1), Hex(c[i]) + Text(c, i + 1));
  }

  function Pow256(n: nat): nat { if n == 0 then 1 else 256 * Pow256(n - 1) }

  /** Big-endian bytes keep the order of the numbers they hold. */
  lemma {:induction false} BigEndianOrdered(v: nat, w: nat, n: nat) returns (k: nat)
    requires v < w < Pow256(n)
    ensures LessAt(BigEndian(v, n), BigEndian(w, n), k)
  {
    if v / 256 < w / 256 {
      k := BigEndianOrdered(v / 256, w / 256, n - 1);
      assert BigEndian(v, n)[..k] == BigEndian(v / 256, n - 1)[..k];
      assert BigEndian(w, n)[..k] == BigEndian(w / 256, n - 1)[..k];
    } else {
      k := n - 1;
      assert BigEndian(v, n)[..k] == BigEndian(v / 256, k);
      assert BigEndian(w, n)[..k] == BigEndian(w / 256, k);
    }
  }

  predicate Before(s: Stamp, t: Stamp) { s.ms < t.ms || (s.ms == t.ms && s.sequence < t.sequence) }

  predicate InField(s: Stamp) { 0 <= s.ms < FIELD_END && s.sequence < SEQUENCES }

  lemma SixBytesHold()
    ensures Pow256(6) == FIELD_END
  {
  }

  lemma LaterStampGreaterBytes(s: Stamp, t: Stamp, a: Rand, b: Rand) returns (k: nat)
    requires InField(s) && InField(t) && Before(s, t)
    ensures LessAt(Layout(s, a), Layout(t, b), k)
  {
    if s.ms < t.ms {
      SixBytesHold();
      k := BigEndianOrdered(s.ms, t.ms, 6);
      hide BigEndian;
      assert Layout(s, a)[..k] == BigEndian(s.ms, 6)[..k];
      assert Layout(t, b)[..k] == BigEndian(t.ms, 6)[..k];
    } else {
      hide BigEndian;
      k := if s.sequence / 256 < t.sequence / 256 then 6 else 7;
      assert Layout(s, a)[..k] == Layout(t, b)[..k];
    }
  }

  /** Ids are ordered as their stamps are, whatever the random bits. */
  lemma LaterStampGreaterId(s: Stamp, t: Stamp, a: Rand, b: Rand)
    requires InField(s) && InField(t) && Before(s, t)
    ensures Less(Id(s, a), Id(t, b)) && !Less(Id(t, b), Id(s, a))
  {
    hide Layout, Text;
    var k := LaterStampGreaterBytes(s, t, a, b);
    TextOrdered(Layout(s, a), Layout(t, b), k, 0);
    Trichotomy(Id(s, a), Id(t, b));
  }

  /** The next id is greater exactly when the clock has not fallen behind the stored time. */
  lemma NextIdGreaterIff(s: Stamp, now: nat, random: nat, a: Rand, b: Rand)
    requires InField(s) && random < SEQUENCES && InField(Next(s, now, random))
    ensures Less(Id(s, a), Id(Next(s, now, random), b)) <==> now >= s.ms
  {
    hide Id, Less;
    var t := Next(s, now, random);
    if now >= s.ms { LaterStampGreaterId(s, t, a, b); } else { LaterStampGreaterId(t, s, b, a); }
  }

  // ---- Runs of calls ------------------------------------------------------

  datatype Call = Call(now: nat, random: nat, rand: Rand)

  function After(s: Stamp, cs: seq<Call>): Stamp {
    if cs == [] then s
    else var p := After(s, cs[..|cs| - 1]); Next(p, cs[|cs| - 1].now, cs[|cs| - 1].random)
  }

  predicate AllInField(s: Stamp, cs: seq<Call>) {
    InField(s) && forall k :: 0 <= k < |cs| ==> cs[k].random < SEQUENCES && InField(After(s, cs[..k + 1]))
  }

  /** The id after the first k calls; `first` are the random bits of the id before them. */
  function IdAfter(s: Stamp, first: Rand, cs: seq<Call>, k: nat): string
    requires AllInField(s, cs) && k <= |cs|
  {
    if k == 0 then Id(s, first) else assert InField(After(s, cs[..k])); Id(After(s, cs[..k]), cs[k - 1].rand)
  }

  /** Every id is greater than the one before it. */
  predicate Ascending(s: Stamp, first: Rand, cs: seq<Call>)
    requires AllInField(s, cs)
  {
    forall k :: 0 <= k < |cs| ==> Less(IdAfter(s, first, cs, k), IdAfter(s, first, cs, k + 1))
  }

  lemma StepAscendsIff(s: Stamp, first: Rand, cs: seq<Call>, k: nat)
    requires AllInField(s, cs) && k < |cs|
    ensures Less(IdAfter(s, first, cs, k), IdAfter(s, first, cs, k + 1)) <==> cs[k].now >= After(s, cs[..k]).ms
  {
    hide Less, Id;
    var p := After(s, cs[..k]);
    assert cs[..k + 1][..k] == cs[..k];
    assert After(s, cs[..k + 1]) == Next(p, cs[k].now, cs[k].random);
    if k == 0 { assert cs[..k] == []; }
    NextIdGreaterIff(p, cs[k].now, cs[k].random, if k == 0 then first else cs[k - 1].rand, cs[k].rand);
  }

  /** A run of ids ascends exactly when no call reads a clock behind the stored time. */
  lemma RunAscendsIff(s: Stamp, first: Rand, cs: seq<Call>)
    requires AllInField(s, cs)
    ensures Ascending(s, first, cs) <==> forall k :: 0 <= k < |cs| ==> cs[k].now >= After(s, cs[..k]).ms
  {
    hide Less, IdAfter, After, Id;
    if Ascending(s, first, cs) {
      forall k | 0 <= k < |cs| ensures cs[k].now >= After(s, cs[..k]).ms { StepAscendsIff(s, first, cs, k); }
    } else {
      var k :| 0 <= k < |cs| && !Less(IdAfter(s, first, cs, k), IdAfter(s, first, cs, k + 1));
      StepAscendsIff(s, first, cs, k);
    }
  }

  lemma {:induction false} BurstStamp(s: Stamp, cs: seq<Call>)
    requires s.sequence < SEQUENCES && |cs| <= SEQUENCES - s.sequence
    requires forall k :: 0 <= k < |cs| ==> cs[k].now == s.ms
    ensures After(s, cs) == if |cs| == SEQUENCES - s.sequence then Stamp(s.ms + 1, 0) else Stamp(s.ms, s.sequence + |cs|)
  {
    if cs != [] { BurstStamp(s, cs[..|cs| - 1]); }
  }

  /** The local counter keeps ids of one millisecond sorted only until it wraps: of the further
      calls at the stored time, the ids ascend exactly as long as there are no more of them than
      the sequence numbers left and one. */
  lemma BurstAscendsIff(s: Stamp, first: Rand, cs: seq<Call>)
    requires AllInField(s, cs) && forall k :: 0 <= k < |cs| ==> cs[k].now == s.ms
    ensures Ascending(s, first, cs) <==> |cs| <= SEQUENCES - s.sequence
  {
    RunAscendsIff(s, first, cs);
    hide Ascending;
    var left := SEQUENCES - s.sequence;
    if |cs| <= left {
      forall k | 0 <= k < |cs| ensures cs[k].now >= After(s, cs[..k]).ms { BurstStamp(s, cs[..k]); }
    } else {
      BurstStamp(s, cs[..left]);
      assert cs[left].now < After(s, cs[..left]).ms;
    }
  }

  /** The version and variant nibbles of section 5.7 of RFC 9562, in every id. */
  lemma VersionAndVariant(s: Stamp, rand: Rand)
    requires InField(s)
    ensures Layout(s, rand)[6] as int / 16 == 7 && Layout(s, rand)[8] as int / 64 == 2
  {
  }

  // ---- Reading an id back -------------------------------------------------

  /** The number that big-endian bytes hold. */
  function Value(b: Bytes): nat { if b == [] then 0 else 256 * Value(b[..|b| - 1]) + b[|b| - 1] as nat }

  lemma {:induction false} BigEndianValue(v: nat, n: nat)
    requires v < Pow256(n)
    ensures Value(BigEndian(v, n)) == v
  {
    if n > 0 {
      BigEndianValue(v / 256, n - 1);
      assert BigEndian(v, n)[..n - 1] == BigEndian(v / 256, n - 1);
    }
  }

  /** Time, sequence and all 62 random bits that are kept can be read back from the bytes of an id; a call at a
      new time takes its sequence from the random number, one at the stored time counts up. */
  lemma LayoutReadsBack(s: Stamp, now: int, random: nat, rand: Rand)
    requires InField(s) && random < SEQUENCES
    ensures var b := Layout(s, rand);
            && Value(b[..6]) == s.ms
            && (b[6] as nat % 16) * 256 + b[7] as nat == s.sequence
            && b[6] as nat / 16 == 7 && b[8] as nat / 64 == 2
            && b[8] as nat % 64 == rand[0] as nat % 64 && b[9..] == rand[1..]
    ensures now != s.ms ==> Next(s, now, random) == Stamp(now, random)
    ensures now == s.ms && s.sequence + 1 < SEQUENCES ==> Next(s, now, random) == Stamp(now, s.sequence + 1)
  {
    SixBytesHold();
    BigEndianValue(s.ms, 6);
    hide BigEndian, Value;
    assert Layout(s, rand)[..6] == BigEndian(s.ms, 6);
  }

  /** The character of a hexadecimal digit, in lower case. */
  function HexChar(d: nat): char
    requires d < 16
  {
    if d < 10 then ('0' as int + d) as char else ('a' as int + d - 10) as char
  }

  /** How many dashes stand before byte i. */
  function DashesBefore(i: nat): nat { if i < 4 then 0 else if i < 6 then 1 else if i < 8 then 2 else if i < 10 then 3 else 4 }

  /** Where byte j stands in the text of bytes i and up. */
  function Place(i: nat, j: nat): int { 2 * (j - i) + DashesBefore(j) - (if i == 0 then 0 else DashesBefore(i - 1)) }

  lemma PlaceFrom(i: nat, j: nat)
    requires i <= j
    ensures Place(i, j) == (if i == j then 0 else 2 + Place(i + 1, j)) + if DashBefore(i) then 1 else 0
    ensures Place(i, 16) == if i < 16 then Place(i, 15) + 2 else Place(i, 16)
    ensures i < j ==> Place(i + 1, j) >= if DashBefore(j) then 1 else 0
  {
  }

  predicate ByteAt(t: string, at: int, x: byte, dash: bool) {
    && 0 <= at && at + 2 <= |t| && t[at] == HexChar(x as nat / 16) && t[at + 1] == HexChar(x as nat % 16)
    && (dash ==> at > 0 && t[at - 1] == '-')
  }

  lemma HexAt(x: byte, dash: bool, rest: string)
    ensures var d := if dash then "-" else ""; ByteAt(d + (Hex(x) + rest), |d|, x, dash)
  {
    DigitIs(x as nat / 16);
    DigitIs(x as nat % 16);
    hide Digit, HexChar;
  }

  lemma LaterAt(front: string, t: string, at: int, x: byte, dash: bool)
    requires ByteAt(t, at, x, dash)
    ensures ByteAt(front + t, |front| + at, x, dash)
  {
    hide HexChar;
  }

  lemma {:induction false} TextFrom(b: Bytes, i: nat, j: nat)
    requires |b| == 16 && i <= j < 16
    ensures ByteAt(Text(b, i), Place(i, j), b[j], DashBefore(j))
    decreases 16 - i
  {
    hide Hex, Place, DashBefore, ByteAt;
    PlaceFrom(i, j);
    var d := if DashBefore(i) then "-" else "";
    if i == j {
      HexAt(b[i], DashBefore(i), Text(b, i + 1));
    } else {
      TextFrom(b, i + 1, j);
      LaterAt(d + Hex(b[i]), Text(b, i + 1), Place(i + 1, j), b[j], DashBefore(j));
      assert d + Hex(b[i]) + Text(b, i + 1) == d + (Hex(b[i]) + Text(b, i + 1));
    }
  }

  lemma {:induction false} TextSize(b: Bytes, i: nat)
    requires |b| == 16 && i <= 16
    ensures |Text(b, i)| == 2 * (16 - i) + 4 - if i == 0 then 0 else DashesBefore(i - 1)
    decreases 16 - i
  {
    hide Hex;
    if i < 16 { TextSize(b, i + 1); }
  }

  lemma DigitIs(d: nat)
    requires d < 16
    ensures Digit(d) == HexChar(d)
  {
  }

  /** The text of an id: 36 characters, dashes after bytes 4, 6, 8 and 10 and nowhere else, and in between two
      lower-case hexadecimal digits for each byte, the high one first. */
  lemma TextIs(b: Bytes, i: nat)
    requires |b| == 16 && i < 16
    ensures var t := Text(b, 0);
            && |t| == 36 && t[8] == '-' && t[13] == '-' && t[18] == '-' && t[23] == '-'
            && t[2 * i + DashesBefore(i)] == HexChar(b[i] as nat / 16)
            && t[2 * i + DashesBefore(i) + 1] == HexChar(b[i] as nat % 16)
  {
    TextSize(b, 0);
    TextFrom(b, 0, i);
    TextFrom(b, 0, 4);
    TextFrom(b, 0, 6);
    TextFrom(b, 0, 8);
    TextFrom(b, 0, 10);
    hide Text, HexChar;
  }
}
