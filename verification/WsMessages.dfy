/** The messages of a WebSocket and the frames that carry them: in framed mode a frame holds one
    message, its type byte in front; in raw mode it holds a chunk of the upgraded connection. */
module WsMessages {
  import opened Messages

  const TEXT: Byte := 1
  const BINARY: Byte := 2

  /** A message, or a chunk read from a raw or TCP connection. */
  datatype WsMessage = WsMessage(opcode: Byte, data: Bytes)

  predicate IsData(m: WsMessage) { m.opcode == TEXT || m.opcode == BINARY }

  /** Control messages are not relayed. */
  function DataOnly(ms: seq<WsMessage>): seq<WsMessage> {
    if ms == [] then []
    else
      var n := |ms| - 1;
      DataOnly(ms[..n]) + (if IsData(ms[n]) then [ms[n]] else [])
  }

  /** All data bytes, message boundaries forgotten: what a TCP peer sees. */
  function BytesOf(ms: seq<WsMessage>): Bytes {
    if ms == [] then [] else BytesOf(ms[..|ms| - 1]) + ms[|ms| - 1].data
  }

  function Wrapped(mode: Mode, m: WsMessage): Bytes {
    if mode.Framed? then [m.opcode] + m.data else m.data
  }

  /** Whether a relay reading `m` has anything to send for it. */
  predicate Relays(mode: Mode, m: WsMessage) {
    if mode.Framed? then IsData(m) else m.data != []
  }

  function Payload(m: Message): Bytes {
    if m.WsC2A? || m.WsA2C? then m.payload else []
  }

  function Unwrapped(p: Bytes): seq<WsMessage> {
    if p == [] then [] else [WsMessage(p[0], p[1..])]
  }

  /** The messages a stretch of frames carries. */
  function Carried(ms: seq<Message>): seq<WsMessage> {
    if ms == [] then []
    else Carried(ms[..|ms| - 1]) + Unwrapped(Payload(ms[|ms| - 1]))
  }

  /** The bytes a stretch of frames carries when payloads are taken as they are. */
  function Payloads(ms: seq<Message>): Bytes {
    if ms == [] then []
    else Payloads(ms[..|ms| - 1]) + Payload(ms[|ms| - 1])
  }

  lemma DataOnlyAppend(ms: seq<WsMessage>, m: WsMessage)
    ensures DataOnly(ms + [m]) == DataOnly(ms) + (if IsData(m) then [m] else [])
  {
    assert (ms + [m])[..|ms|] == ms;
  }

  lemma BytesOfAppend(ms: seq<WsMessage>, m: WsMessage)
    ensures BytesOf(ms + [m]) == BytesOf(ms) + m.data
  {
    assert (ms + [m])[..|ms|] == ms;
  }

  lemma CarriedAppend(ms: seq<Message>, m: Message)
    ensures Carried(ms + [m]) == Carried(ms) + Unwrapped(Payload(m))
    ensures Payloads(ms + [m]) == Payloads(ms) + Payload(m)
  {
    assert (ms + [m])[..|ms|] == ms;
  }

  lemma {:induction false} CarriedPrefix(a: seq<Message>, b: seq<Message>)
    requires a <= b
    ensures Carried(a) <= Carried(b) && Payloads(a) <= Payloads(b)
  {
    if a != b {
      assert a <= b[..|b| - 1];
      CarriedPrefix(a, b[..|b| - 1]);
    }
  }

  lemma {:induction false} BytesOfPrefix(a: seq<WsMessage>, b: seq<WsMessage>)
    requires a <= b
    ensures BytesOf(a) <= BytesOf(b)
  {
    if a != b {
      assert a <= b[..|b| - 1];
      BytesOfPrefix(a, b[..|b| - 1]);
    }
  }

  lemma {:induction false} CarriedSpoken(ms: seq<Message>)
    ensures Carried(Spoken(ms)) == Carried(ms) && Payloads(Spoken(ms)) == Payloads(ms)
  {
    if ms == [] {
    } else {
      var a, m := ms[..|ms| - 1], ms[|ms| - 1];
      CarriedSpoken(a);
      assert ms == a + [m];
      CarriedAppend(a, m);
      SpokenAppend(a, m);
      if IsSpoken(m) {
        CarriedAppend(Spoken(a), m);
      } else {
        assert Spoken(ms) == Spoken(a) && Carried(ms) == Carried(a) + [] && Payloads(ms) == Payloads(a) + [];
      }
    }
  }

  // ----- what a relay has sent of what it has read -----

  /** The frames `sent` carry a beginning of the messages, or in raw mode of the bytes, read, and all
      of them unless the relay's reader has stopped at a failed send. */
  ghost predicate Echoes(mode: Mode, sent: seq<Message>, said: seq<WsMessage>, stopped: bool) {
    if mode.Framed? then
      Carried(sent) <= DataOnly(said) && (!stopped ==> Carried(sent) == DataOnly(said))
    else
      Payloads(sent) <= BytesOf(said) && (!stopped ==> Payloads(sent) == BytesOf(said))
  }

  lemma EchoesFrame(mode: Mode, sent: seq<Message>, said: seq<WsMessage>, m: WsMessage, f: Message)
    requires Echoes(mode, sent, said, false) && Payload(f) == Wrapped(mode, m) && Relays(mode, m)
    ensures Echoes(mode, sent + [f], said + [m], false)
  {
    CarriedAppend(sent, f);
    DataOnlyAppend(said, m);
    BytesOfAppend(said, m);
    if mode.Framed? { assert Wrapped(mode, m)[1..] == m.data; }
  }

  /** A message read and not sent, because it is none to send or because sending failed. */
  lemma EchoesUnsent(mode: Mode, sent: seq<Message>, said: seq<WsMessage>, m: WsMessage)
    requires Echoes(mode, sent, said, false)
    ensures Echoes(mode, sent, said + [m], true)
    ensures !Relays(mode, m) ==> Echoes(mode, sent, said + [m], false)
  {
    DataOnlyAppend(said, m);
    BytesOfAppend(said, m);
    assert BytesOf(said) + [] == BytesOf(said);
  }

  /** A frame that carries nothing. */
  lemma EchoesAside(mode: Mode, sent: seq<Message>, said: seq<WsMessage>, stopped: bool, f: Message)
    requires Echoes(mode, sent, said, stopped) && Payload(f) == []
    ensures Echoes(mode, sent + [f], said, stopped)
  {
    CarriedAppend(sent, f);
    assert Carried(sent) + [] == Carried(sent) && Payloads(sent) + [] == Payloads(sent);
  }
}
