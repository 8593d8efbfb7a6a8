/** The wire formats byte by byte: where each field is, and which end comes first. */
module WireFormat {
  import opened Basics
  import opened Traffic
  import opened Frames
  import N = Noise

  /** A byte of a number: i bytes from the right, in base 256. */
  function Digit(n: nat, i: nat): byte {
    if i == 0 then n % 256 else Digit(n / 256, i - 1)
  }

  /** Most significant byte first. */
  lemma {:induction false} BigEndianDigits(n: nat, width: nat, i: nat)
    requires i < width
    ensures BigEndian(n, width)[i] == Digit(n, width - 1 - i)
  {
    if i < width - 1 {
      BigEndianDigits(n / 256, width - 1, i);
    }
  }

  function Digits(n: nat, width: nat): Bytes {
    seq(width, i requires 0 <= i < width => Digit(n, width - 1 - i))
  }

  lemma BigEndianIs(n: nat, width: nat)
    ensures BigEndian(n, width) == Digits(n, width)
  {
    forall i | 0 <= i < width ensures BigEndian(n, width)[i] == Digits(n, width)[i] {
      BigEndianDigits(n, width, i);
    }
  }

  function Four(n: nat): Bytes {
    [n / 0x100_0000 % 256, n / 0x1_0000 % 256, n / 0x100 % 256, n % 256]
  }

  lemma FourBytes(n: nat)
    ensures BigEndian(n, 4) == Four(n)
  {
    var a := BigEndian(n / 256 / 256 / 256, 1);
    assert a == [] + [n / 256 / 256 / 256 % 256];
    assert BigEndian(n / 256 / 256, 2) == a + [n / 256 / 256 % 256];
    assert BigEndian(n / 256, 3) == a + [n / 256 / 256 % 256] + [n / 256 % 256];
  }

  /** A relay frame: the kind, 0 to 2; the length in four bytes; the payload, of 4 KiB at the most in the
      handshake and 8 MiB after it. Anything else is refused. */
  lemma FrameLayout(kind: byte, payload: Bytes)
    ensures var limit := if kind == 0 then 4096 else if kind in {1, 2} then 8388608 else -1;
      WriteFrame(kind, payload) ==
        if limit < 0 then Err(UnknownFrameKind)
        else if |payload| > limit then Err(FrameTooLarge)
        else Ok([kind] + Four(|payload|) + payload)
  {
    FourBytes(|payload|);
  }

  /** A lane envelope: one byte for the lane, 0 for control, 1 for media, 2 for bulk; the payload. */
  lemma EnvelopeLayout(payload: Bytes)
    ensures EncodeEnvelope(LaneCode(LaneForClass(Control)), payload) == Ok([0] + payload)
    ensures EncodeEnvelope(LaneCode(LaneForClass(Interactive)), payload) == Ok([1] + payload)
    ensures EncodeEnvelope(LaneCode(LaneForClass(Thumbnail)), payload) == Ok([1] + payload)
    ensures EncodeEnvelope(LaneCode(LaneForClass(Bulk)), payload) == Ok([2] + payload)
    ensures forall lane: byte :: lane > 2 ==> EncodeEnvelope(lane, payload).Err?
    ensures DecodeEnvelope([]).Err? && forall lane: byte :: lane > 2 ==> DecodeEnvelope([lane] + payload).Err?
  {
  }

  /** A chunk frame: type 0x10, version 1, operation in eight bytes, generation in four, payload. */
  lemma ChunkLayout(operation: nat, generation: nat, data: Bytes)
    ensures var f := EncodeChunkFrame(operation, generation, data);
      && |f| == 14 + |data| && f[0] == 0x10 && f[1] == 1 && f[14..] == data && f[10..14] == Four(generation)
      && f[2..10] == Digits(operation, 8)
  {
    var f := EncodeChunkFrame(operation, generation, data);
    FourBytes(generation);
    assert f[10..14] == BigEndian(generation, 4);
    BigEndianIs(operation, 8);
    assert f[2..10] == BigEndian(operation, 8);
  }

  /** What is encoded and decoded at all. The browser encodes nonzero 64-bit operations and 32-bit generations; the
      agent decodes any chunk frame of the right type and version, the browser only those in which some byte of the
      operation is not zero, and thumbnails that have their index. */
  lemma ChunksAccepted(operation: int, generation: int, frame: Bytes)
    ensures EncodeChunkEnvelope(operation, generation, frame).Ok? <==>
      1 <= operation < 0x1_0000_0000_0000_0000 && 0 <= generation < 0x1_0000_0000
    ensures DecodeChunkFrame(frame).Ok? <==> |frame| >= 14 && frame[0] == 0x10 && frame[1] == 1
    ensures DecodeBinaryEnvelope(frame).Ok? <==>
      || (|frame| >= 14 && frame[0] == 0x10 && frame[1] == 1 && exists i :: 2 <= i < 10 && frame[i] != 0)
      || (|frame| >= 3 && frame[0] == 0x11)
  {
    if |frame| >= 14 {
      ZeroExactly(frame[2..10]);
      assert forall i :: 2 <= i < 10 ==> frame[i] == frame[2..10][i - 2];
      assert forall i :: 0 <= i < 8 ==> frame[2..10][i] == frame[i + 2];
    }
  }

  lemma {:induction false} ZeroExactly(bs: Bytes)
    ensures FromBigEndian(bs) == 0 <==> forall i :: 0 <= i < |bs| ==> bs[i] == 0
  {
    if bs != [] {
      ZeroExactly(bs[..|bs| - 1]);
      assert forall i :: 0 <= i < |bs| - 1 ==> bs[..|bs| - 1][i] == bs[i];
    }
  }

  /** A thumbnail: type 0x11, index in two bytes, payload. */
  lemma ThumbnailLayout(index: nat, payload: Bytes)
    ensures EncodeThumbnail(index, payload) == [0x11, index / 256 % 256, index % 256] + payload
  {
    assert BigEndian(index / 256, 1) == [] + [index / 256 % 256];
  }

  /** A nonce: four zero bytes, then the counter. */
  lemma NonceLayout(n: nat)
    ensures N.NonceBytes(n) == [0, 0, 0, 0] + Digits(n, 8)
  {
    BigEndianIs(n, 8);
  }

  /** Ciphertext i of a sequence is sealed with the counter's ith nonce and no associated data; the
      sequence goes through exactly if the key is set and the counter lasts. */
  lemma {:induction false} SealedInOrder(c: N.Suite, s: N.Cipher, ms: seq<Bytes>)
    requires s.n <= 0xffff_ffff_ffff_ffff
    ensures N.EncryptAll(c, s, ms).0.Ok? <==> ms == [] || (s.key != seq(32, _ => 0) && s.n + |ms| <= 0xffff_ffff_ffff_ffff)
    ensures N.EncryptAll(c, s, ms).0.Ok? ==>
      var cs := N.EncryptAll(c, s, ms).0.value;
      |cs| == |ms| && forall i :: 0 <= i < |ms| ==> cs[i] == c.seal(s.key, N.NonceBytes(s.n + i), [], ms[i])
    decreases |ms|
  {
    if ms != [] && N.Encrypt(c, s, [], ms[0]).0.Ok? {
      var s1 := N.Encrypt(c, s, [], ms[0]).1;
      SealedInOrder(c, s1, ms[1..]);
      if N.EncryptAll(c, s, ms).0.Ok? {
        var cs := N.EncryptAll(c, s, ms).0.value;
        forall i | 0 <= i < |ms| ensures cs[i] == c.seal(s.key, N.NonceBytes(s.n + i), [], ms[i]) {
          if i > 0 {
            assert cs[i] == cs[1..][i - 1] && ms[i] == ms[1..][i - 1];
          }
        }
      }
    }
  }
}
