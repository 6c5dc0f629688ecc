/** The frame codec: one type byte, the stream id and the payload length as four big-endian
    bytes each, then the payload. */
module Frames {
  import opened Messages

  type Word = x: int | 0 <= x < 0x1_0000_0000

  const HEADER_BYTES: nat := 9
  const WEBSOCKET_FRAME_OVERHEAD: nat := HEADER_BYTES + 1
  const WS_READ_LIMIT_BYTES: nat := 0x280_0000  // 40 MiB

  datatype Frame = Frame(kind: Byte, stream: Word, payload: Bytes)

  datatype Result<+T> = Ok(value: T) | Err(message: string)

  function BigEndian(v: Word): Bytes {
    [v / 0x100_0000, v / 0x1_0000 % 0x100, v / 0x100 % 0x100, v % 0x100]
  }

  function Uint32(b: Bytes): Word
    requires |b| == 4
  {
    b[0] as int * 0x100_0000 + b[1] as int * 0x1_0000 + b[2] as int * 0x100 + b[3] as int
  }

  /** The bytes of a frame; the length field keeps only 32 bits of the payload's length. */
  function Encoding(f: Frame): Bytes {
    [f.kind] + BigEndian(f.stream) + BigEndian(|f.payload| % 0x1_0000_0000) + f.payload
  }

  method PutUint32(out: array<Byte>, at: nat, v: Word)
    requires at + 4 <= out.Length
    modifies out
    ensures out[..at] == old(out[..at]) && out[at..at + 4] == BigEndian(v) && out[at + 4..] == old(out[at + 4..])
  {
    out[at] := v / 0x100_0000;
    out[at + 1] := v / 0x1_0000 % 0x100;
    out[at + 2] := v / 0x100 % 0x100;
    out[at + 3] := v % 0x100;
  }

  method EncodeFrame(kind: Byte, stream: Word, payload: Bytes) returns (out: array<Byte>)
    ensures fresh(out) && out[..] == Encoding(Frame(kind, stream, payload))
  {
    out := new Byte[HEADER_BYTES + |payload|](_ => 0);
    out[0] := kind;
    PutUint32(out, 1, stream);
    ghost var head := out[..5];
    assert head == [kind] + BigEndian(stream);
    PutUint32(out, 5, |payload| % 0x1_0000_0000);
    assert out[..9] == out[..5] + out[5..9];
    head := out[..9];
    for i := 0 to |payload|
      invariant out[..9] == head
      invariant out[9..9 + i] == payload[..i]
    {
      out[9 + i] := payload[i];
      assert out[9..9 + i + 1] == out[9..9 + i] + [payload[i]];
    }
    assert out[..] == out[..9] + out[9..];
  }

  function DecodeFrame(b: Bytes): Result<Frame> {
    if |b| < HEADER_BYTES then Err("frame too short")
    else
      var n := Uint32(b[5..9]);
      if |b| != HEADER_BYTES + n then Err("frame length mismatch")
      else Ok(Frame(b[0], Uint32(b[1..5]), b[9..]))
  }

  lemma WordRoundTrip(v: Word)
    ensures Uint32(BigEndian(v)) == v
  {
    var a: int, b: int, c: int := v / 0x100_0000, v / 0x1_0000, v / 0x100;
    assert b / 0x100 == a && c / 0x100 == b;
    assert v == c * 0x100 + v % 0x100 && c == b * 0x100 + c % 0x100 && b == a * 0x100 + b % 0x100;
  }

  lemma BytesRoundTrip(b: Bytes)
    requires |b| == 4
    ensures BigEndian(Uint32(b)) == b
  {
    var v: int := Uint32(b);
    var high: int := b[0] as int * 0x100 + b[1] as int;
    var middle: int := high * 0x100 + b[2] as int;
    assert v == middle * 0x100 + b[3] as int;
    assert v / 0x100 == middle && v % 0x100 == b[3];
    assert v / 0x1_0000 == high && middle % 0x100 == b[2];
    assert v / 0x100_0000 == b[0] && high % 0x100 == b[1];
  }

  /** A frame survives encoding exactly when its payload is shorter than 2^32 bytes; a longer one
      is rejected by the reader, never misread. */
  lemma DecodesWhatWasEncoded(f: Frame)
    ensures DecodeFrame(Encoding(f)) == Ok(f) <==> |f.payload| < 0x1_0000_0000
    ensures |f.payload| >= 0x1_0000_0000 ==> DecodeFrame(Encoding(f)).Err?
  {
    var b, n := Encoding(f), |f.payload| % 0x1_0000_0000;
    assert b[1..5] == BigEndian(f.stream) && b[5..9] == BigEndian(n) && b[9..] == f.payload;
    WordRoundTrip(f.stream);
    WordRoundTrip(n);
  }

  /** The reader accepts nothing but encodings: exactly the encodings of frames with a payload
      shorter than 2^32 bytes, each as the frame it encodes. */
  lemma AcceptsOnlyEncodings(b: Bytes)
    ensures DecodeFrame(b).Ok? <==> exists f: Frame :: |f.payload| < 0x1_0000_0000 && Encoding(f) == b
    ensures DecodeFrame(b).Ok? ==> Encoding(DecodeFrame(b).value) == b
  {
    if DecodeFrame(b).Ok? {
      var f := DecodeFrame(b).value;
      BytesRoundTrip(b[1..5]);
      BytesRoundTrip(b[5..9]);
      assert b == [b[0]] + b[1..5] + b[5..9] + b[9..];
      assert Encoding(f) == b;
    }
    forall f: Frame | |f.payload| < 0x1_0000_0000 && Encoding(f) == b ensures DecodeFrame(b).Ok? {
      DecodesWhatWasEncoded(f);
    }
  }

  /** A relayed message, its type byte put in front, always decodes on the other side when the
      reader let it in, and fits the peer's own limit exactly when it was within the limit. */
  lemma RelayedMessageFits(kind: Byte, stream: Word, messageType: Byte, data: Bytes)
    ensures var b := Encoding(Frame(kind, stream, [messageType] + data));
            && (|b| <= WS_READ_LIMIT_BYTES + WEBSOCKET_FRAME_OVERHEAD <==> |data| <= WS_READ_LIMIT_BYTES)
            && (|data| <= WS_READ_LIMIT_BYTES ==> DecodeFrame(b) == Ok(Frame(kind, stream, [messageType] + data)))
  {
    DecodesWhatWasEncoded(Frame(kind, stream, [messageType] + data));
  }
}
