/** The loops of the relays: from a WebSocket, a raw or a TCP connection into frames, and from
    frames out again. A loop that sends stops at its first failed send, one that writes at its first
    failed write. */
module RelayLoops {
  import opened Messages
  import opened WsMessages

  predicate Stops(m: Message) { m.WsClose? || m.Rst? }

  /** A relay loop has seen a close or a reset. */
  function Stopped(ms: seq<Message>): bool {
    ms != [] && (Stopped(ms[..|ms| - 1]) || Stops(ms[|ms| - 1]))
  }

  /** The messages a relay loop passes on before it stops. */
  function Received(ms: seq<Message>): seq<WsMessage> {
    if ms == [] then []
    else
      var n := |ms| - 1;
      Received(ms[..n]) + (if Stopped(ms[..n]) then [] else Unwrapped(Payload(ms[n])))
  }

  /** The bytes a raw relay loop passes on before it stops. */
  function RawReceived(ms: seq<Message>): Bytes {
    if ms == [] then []
    else
      var n := |ms| - 1;
      RawReceived(ms[..n]) + (if Stopped(ms[..n]) then [] else Payload(ms[n]))
  }

  /** The bytes a relay loop writes to a TCP target before it stops. */
  function TcpReceived(ms: seq<Message>): Bytes {
    if ms == [] then []
    else
      var n := |ms| - 1;
      TcpReceived(ms[..n]) + (if Stopped(ms[..n]) then [] else Data(ms[n]))
  }

  function Data(m: Message): Bytes { if Payload(m) == [] then [] else Payload(m)[1..] }

  /** They are the bytes of the messages received, empty messages and boundaries gone. */
  lemma {:induction false} TcpIsBytes(ms: seq<Message>)
    ensures TcpReceived(ms) == BytesOf(Received(ms))
  {
    if ms == [] {
    } else {
      var n := |ms| - 1;
      TcpIsBytes(ms[..n]);
      if Stopped(ms[..n]) || Payload(ms[n]) == [] {
        assert Received(ms) == Received(ms[..n]);
      } else {
        BytesOfAppend(Received(ms[..n]), WsMessage(Payload(ms[n])[0], Payload(ms[n])[1..]));
      }
    }
  }

  function Concat(chunks: seq<Bytes>): Bytes {
    if chunks == [] then [] else Concat(chunks[..|chunks| - 1]) + chunks[|chunks| - 1]
  }

  lemma ReceivedAppend(ms: seq<Message>, m: Message)
    requires !Stopped(ms)
    ensures Received(ms + [m]) == Received(ms) + Unwrapped(Payload(m))
    ensures RawReceived(ms + [m]) == RawReceived(ms) + Payload(m)
    ensures TcpReceived(ms + [m]) == TcpReceived(ms) + Data(m)
    ensures Stopped(ms + [m]) == Stops(m)
  {
    assert (ms + [m])[..|ms|] == ms;
  }

  lemma ConcatAppend(chunks: seq<Bytes>, chunk: Bytes)
    ensures Concat(chunks + [chunk]) == Concat(chunks) + chunk
  {
    assert (chunks + [chunk])[..|chunks|] == chunks;
  }

  lemma {:induction false} ReceivedIsCarried(ms: seq<Message>)
    ensures Received(ms) <= Carried(ms) && RawReceived(ms) <= Payloads(ms)
    ensures !Stopped(ms) ==> Received(ms) == Carried(ms) && RawReceived(ms) == Payloads(ms)
  {
    if ms == [] {
    } else {
      ReceivedIsCarried(ms[..|ms| - 1]);
    }
  }

  /** What comes after a stop makes no difference. */
  lemma {:induction false} AfterStop(ms: seq<Message>, k: nat)
    requires k <= |ms| && Stopped(ms[..k])
    ensures Stopped(ms) && Received(ms) == Received(ms[..k]) && RawReceived(ms) == RawReceived(ms[..k])
    ensures TcpReceived(ms) == TcpReceived(ms[..k])
    decreases |ms|
  {
    if k == |ms| {
      assert ms[..k] == ms;
    } else {
      assert ms[..|ms| - 1][..k] == ms[..k];
      AfterStop(ms[..|ms| - 1], k);
    }
  }

  /** A stop itself carries nothing on. */
  lemma AtStop(ms: seq<Message>, k: nat)
    requires k < |ms| && !Stopped(ms[..k]) && Stops(ms[k])
    ensures Received(ms) == Received(ms[..k]) && RawReceived(ms) == RawReceived(ms[..k])
    ensures TcpReceived(ms) == TcpReceived(ms[..k])
  {
    assert ms[..k + 1] == ms[..k] + [ms[k]];
    ReceivedAppend(ms[..k], ms[k]);
    assert Received(ms[..k]) + [] == Received(ms[..k]) && RawReceived(ms[..k]) + [] == RawReceived(ms[..k]);
    assert TcpReceived(ms[..k]) + [] == TcpReceived(ms[..k]);
    AfterStop(ms, k + 1);
  }

  // ----- into frames -----

  /** The goroutine that reads a WebSocket, the client's or the target's; its sends fail from number
      `failsAt` on. The last message read may be the one it failed to send. */
  method RelayFromWebSocket(ms: seq<WsMessage>, failsAt: nat)
    returns (frames: seq<Message>, read: nat, stopped: bool)
    ensures read <= |ms| && Echoes(Framed, frames, ms[..read], stopped)
    ensures if stopped then |frames| == failsAt && read > 0 && IsData(ms[read - 1])
                            && Carried(frames) == DataOnly(ms[..read - 1])
            else read == |ms| && |frames| <= failsAt
    ensures |Carried(frames)| == |frames| && forall f :: f in frames ==> f.WsC2A?
  {
    frames, read := [], 0;
    while read < |ms|
      invariant read <= |ms| && |frames| <= failsAt
      invariant Echoes(Framed, frames, ms[..read], false)
      invariant |Carried(frames)| == |frames| && forall f :: f in frames ==> f.WsC2A?
    {
      var m := ms[read];
      assert ms[..read + 1] == ms[..read] + [m];
      read := read + 1;
      EchoesUnsent(Framed, frames, ms[..read - 1], m);
      if m.opcode == TEXT || m.opcode == BINARY {
        if |frames| >= failsAt {
          return frames, read, true;
        }
        var f := WsC2A([m.opcode] + m.data);
        EchoesFrame(Framed, frames, ms[..read - 1], m, f);
        CarriedAppend(frames, f);
        frames := frames + [f];
      }
    }
    stopped := false;
  }

  /** The goroutine that reads a raw connection. */
  method RelayFromRaw(chunks: seq<Bytes>, failsAt: nat) returns (frames: seq<Message>, read: nat, stopped: bool)
    ensures read <= |chunks|
    ensures if stopped then |frames| == failsAt && read > 0 && Payloads(frames) == Concat(chunks[..read - 1])
            else read == |chunks| && |frames| <= failsAt && Payloads(frames) == Concat(chunks)
    ensures forall f :: f in frames ==> f.WsC2A? && f.payload != []
  {
    frames, read := [], 0;
    while read < |chunks|
      invariant read <= |chunks| && |frames| <= failsAt && Payloads(frames) == Concat(chunks[..read])
      invariant forall f :: f in frames ==> f.WsC2A? && f.payload != []
    {
      var chunk := chunks[read];
      assert chunks[..read + 1] == chunks[..read] + [chunk];
      ConcatAppend(chunks[..read], chunk);
      read := read + 1;
      if |chunk| > 0 {
        if |frames| >= failsAt {
          return frames, read, true;
        }
        CarriedAppend(frames, WsC2A(chunk));
        frames := frames + [WsC2A(chunk)];
      }
    }
    assert chunks[..|chunks|] == chunks;
    stopped := false;
  }

  /** The goroutine that reads a TCP target: each chunk goes out as a binary message. */
  method RelayFromTcp(chunks: seq<Bytes>, failsAt: nat) returns (frames: seq<Message>, read: nat, stopped: bool)
    ensures read <= |chunks|
    ensures if stopped then |frames| == failsAt && read > 0 && BytesOf(Carried(frames)) == Concat(chunks[..read - 1])
            else read == |chunks| && |frames| <= failsAt && BytesOf(Carried(frames)) == Concat(chunks)
    ensures forall m :: m in Carried(frames) ==> m.opcode == BINARY && m.data != []
  {
    frames, read := [], 0;
    while read < |chunks|
      invariant read <= |chunks| && |frames| <= failsAt && BytesOf(Carried(frames)) == Concat(chunks[..read])
      invariant forall m :: m in Carried(frames) ==> m.opcode == BINARY && m.data != []
    {
      var chunk := chunks[read];
      assert chunks[..read + 1] == chunks[..read] + [chunk];
      ConcatAppend(chunks[..read], chunk);
      read := read + 1;
      if |chunk| > 0 {
        if |frames| >= failsAt {
          return frames, read, true;
        }
        var f := WsA2C([BINARY] + chunk);
        assert f.payload[1..] == chunk;
        CarriedAppend(frames, f);
        BytesOfAppend(Carried(frames), WsMessage(BINARY, chunk));
        frames := frames + [f];
      }
    }
    assert chunks[..|chunks|] == chunks;
    stopped := false;
  }

  // ----- out of frames -----

  function PassedOn(m: WsMessage, coerce: bool): WsMessage {
    if coerce && !IsData(m) then WsMessage(BINARY, m.data) else m
  }

  /** The loop that passes frames on, to the upstream WebSocket or to the client. `coerce` is the
      transparent variant, which turns an unknown opcode into binary. */
  method RelayToWebSocket(frames: seq<Message>, coerce: bool, failsAt: nat) returns (out: seq<WsMessage>)
    ensures |out| == if |Received(frames)| < failsAt then |Received(frames)| else failsAt
    ensures forall i :: 0 <= i < |out| ==> out[i] == PassedOn(Received(frames)[i], coerce)
  {
    out := [];
    for i := 0 to |frames|
      invariant !Stopped(frames[..i]) && |out| == |Received(frames[..i])| <= failsAt
      invariant forall k :: 0 <= k < |out| ==> out[k] == PassedOn(Received(frames[..i])[k], coerce)
    {
      var f := frames[i];
      assert frames[..i + 1] == frames[..i] + [f];
      if f.WsClose? || f.Rst? {
        AtStop(frames, i);
        return;
      }
      ReceivedAppend(frames[..i], f);
      var p := Payload(f);
      if |p| > 0 {
        if |out| >= failsAt {
          ReceivedGrows(frames[..i + 1], frames);
          return;
        }
        var opcode := if coerce && p[0] != TEXT && p[0] != BINARY then BINARY else p[0];
        out := out + [WsMessage(opcode, p[1..])];
      }
    }
    assert frames[..|frames|] == frames;
  }

  lemma {:induction false} ReceivedGrows(a: seq<Message>, b: seq<Message>)
    requires a <= b
    ensures Received(a) <= Received(b) && RawReceived(a) <= RawReceived(b) && TcpReceived(a) <= TcpReceived(b)
  {
    if a != b {
      assert a <= b[..|b| - 1];
      ReceivedGrows(a, b[..|b| - 1]);
    }
  }

  /** The loop that writes frames to a TCP target; it skips a frame that carries no data. The write
      that fails may have taken a part of its data. */
  method RelayToTcp(frames: seq<Message>, failsAt: nat, part: nat) returns (written: Bytes, writes: nat, failed: bool)
    ensures written <= TcpReceived(frames) && writes <= failsAt && (failed ==> writes == failsAt)
    ensures !failed ==> written == TcpReceived(frames)
  {
    written, writes := [], 0;
    for i := 0 to |frames|
      invariant !Stopped(frames[..i]) && writes <= failsAt && written == TcpReceived(frames[..i])
    {
      var f := frames[i];
      assert frames[..i + 1] == frames[..i] + [f];
      if f.WsClose? || f.Rst? {
        AtStop(frames, i);
        return written, writes, false;
      }
      ReceivedAppend(frames[..i], f);
      var p := Payload(f);
      var data := if |p| > 1 then p[1..] else [];
      assert data == Data(f) && (data == [] ==> written + data == written);
      if |data| > 0 {
        if writes >= failsAt {
          ReceivedGrows(frames[..i + 1], frames);
          return written + (if part < |data| then data[..part] else data), writes, true;
        }
        written := written + data;
        writes := writes + 1;
      }
    }
    assert frames[..|frames|] == frames;
    failed := false;
  }

  /** The loop that writes frames to a raw connection. */
  method RelayToRaw(frames: seq<Message>, failsAt: nat, part: nat) returns (written: Bytes, writes: nat, failed: bool)
    ensures written <= RawReceived(frames) && writes <= failsAt && (failed ==> writes == failsAt)
    ensures !failed ==> written == RawReceived(frames)
  {
    written, writes := [], 0;
    for i := 0 to |frames|
      invariant !Stopped(frames[..i]) && writes <= failsAt && written == RawReceived(frames[..i])
    {
      var f := frames[i];
      assert frames[..i + 1] == frames[..i] + [f];
      if f.WsClose? || f.Rst? {
        AtStop(frames, i);
        return written, writes, false;
      }
      ReceivedAppend(frames[..i], f);
      var p := Payload(f);
      if |p| > 0 {
        if writes >= failsAt {
          ReceivedGrows(frames[..i + 1], frames);
          return written + (if part < |p| then p[..part] else p), writes, true;
        }
        written := written + p;
        writes := writes + 1;
      }
    }
    assert frames[..|frames|] == frames;
    failed := false;
  }
}
