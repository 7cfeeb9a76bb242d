/** The binary plaintext envelope of web/src/lib/crypto/session.ts (a mark, a two-byte
    big-endian length, JSON metadata, payload bytes) and the size of the frame it becomes. */
module Envelopes {
  import opened Chunking
  import opened Wrappers
  import opened Pacers

  const IMAGE_PLAIN_MARK: byte := 0x02
  const IMAGE_CHUNK_MARK: byte := 0x03
  const HISTORY_CHUNK_MARK: byte := 0x04
  const TRANSFER_CHUNK_MARK: byte := 0x05

  /** floor(3.9 * 1024 * 1024), and the relay's default MaxFrameBytes. */
  const MAX_CIPHERTEXT_BYTES: nat := 4089446
  const MAX_FRAME_BYTES: nat := 4 * 1024 * 1024

  predicate Binary(mark: byte) { IMAGE_PLAIN_MARK <= mark <= TRANSFER_CHUNK_MARK }

  datatype Envelope = Envelope(mark: byte, meta: Bytes, payload: Bytes) {
    predicate Encodable() { |meta| <= 0xffff }
  }

  /** The envelope's bytes. */
  function Layout(e: Envelope): Bytes
    requires e.Encodable()
  {
    [e.mark, (|e.meta| / 256) as byte, (|e.meta| % 256) as byte] + e.meta + e.payload
  }

  /** What decodePlaintext takes apart before it looks at the metadata; None where it throws
      or goes on to read the plaintext as JSON. */
  function Parse(pt: Bytes): Option<Envelope> {
    if |pt| < 3 || !Binary(pt[0]) then None
    else
      var metaLen := pt[1] as int * 256 + pt[2] as int;
      if |pt| < 3 + metaLen then None else Some(Envelope(pt[0], pt[3..3 + metaLen], pt[3 + metaLen..]))
  }

  /** Encoding and parsing are inverse: an envelope is read back exactly from its own layout. */
  lemma ParseIsInverse(pt: Bytes, e: Envelope)
    ensures Parse(pt) == Some(e) <==>
            && 2 <= e.mark as int <= 5 && |e.meta| <= 0xffff
            && |pt| == 3 + |e.meta| + |e.payload| && pt[0] == e.mark && pt[1] as int * 256 + pt[2] as int == |e.meta|
            && pt[3..3 + |e.meta|] == e.meta && pt[3 + |e.meta|..] == e.payload
    ensures Parse(pt) == Some(e) <==> Binary(e.mark) && e.Encodable() && pt == Layout(e)
  {
  }

  /** encodeBinaryEnvelope; fails when the metadata is too long for its length field. */
  method EncodeBinaryEnvelope(mark: byte, meta: Bytes, payload: Bytes) returns (ok: bool, out: array<byte>)
    ensures fresh(out)
    ensures ok <==> |meta| <= 0xffff
    ensures ok ==> out[..] == Layout(Envelope(mark, meta, payload))
    ensures ok && Binary(mark) ==> Parse(out[..]) == Some(Envelope(mark, meta, payload))
  {
    if |meta| > 0xffff {
      out := new byte[0];
      return false, out;
    }
    out := new byte[1 + 2 + |meta| + |payload|];
    out[0] := mark;
    out[1] := (|meta| / 256 % 256) as byte;
    out[2] := (|meta| % 256) as byte;
    forall i | 0 <= i < |meta| { out[3 + i] := meta[i]; }
    forall i | 0 <= i < |payload| { out[3 + |meta| + i] := payload[i]; }
    ok := true;
    assert out[..] == Layout(Envelope(mark, meta, payload));
    ParseIsInverse(out[..], Envelope(mark, meta, payload));
  }

  /** encryptMessage's output for n plaintext bytes: a version byte, a 12-byte nonce, the
      AES-GCM ciphertext and its 16-byte tag (NIST SP 800-38D). */
  function WireLength(n: nat): nat { 1 + 12 + n + 16 }

  /** Every chunk frame, whatever metadata it carries, goes out at the pacer's own rate rather
      than as an over-sized frame, is not refused by encryptMessage and not dropped by the relay. */
  lemma ChunkFrameFits(e: Envelope)
    requires e.Encodable() && |e.payload| <= CHUNK_BYTES
    ensures WireLength(|Layout(e)|) == 32 + |e.meta| + |e.payload|
    ensures WireLength(|Layout(e)|) as real <= PACER_BURST_BYTES
    ensures WireLength(|Layout(e)|) <= MAX_CIPHERTEXT_BYTES <= MAX_FRAME_BYTES
  {
  }

  /** The burst is described as two chunk frames, but two full ones never fit in it together:
      their payloads alone fill it. */
  lemma TwoChunkFramesExceedBurst(a: Envelope, b: Envelope)
    requires a.Encodable() && b.Encodable() && |a.payload| == |b.payload| == CHUNK_BYTES
    ensures (WireLength(|Layout(a)|) + WireLength(|Layout(b)|)) as real > PACER_BURST_BYTES
  {
  }
}
