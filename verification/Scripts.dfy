/** The order in which the gateway's handlers speak on a stream, the order in which the
    agent's handlers answer, and what the gateway's HTTP handler makes of the answer. */
module Scripts {
  import opened Messages

  datatype Phase = Idle | Body | Trailers | Ended | Relay | Illegal

  /** One step of a gateway handler; a reset may be interjected anywhere. */
  function NextRequest(p: Phase, m: Message): Phase {
    if m.Rst? then p
    else if m.ReqStart? then
      if !p.Idle? || !m.parses then Illegal else if m.webSocket then Relay else Body
    else if m.ReqData? then if p.Body? && m.data != [] then Body else Illegal
    else if m.ReqTrailer? then if p.Body? then Trailers else Illegal
    else if m.ReqEnd? then if p.Body? || p.Trailers? then Ended else Illegal
    else if m.WsC2A? || m.WsClose? then if p.Relay? then Relay else Illegal
    else Illegal
  }

  function Requesting(ms: seq<Message>): Phase {
    if ms == [] then Idle else NextRequest(Requesting(ms[..|ms| - 1]), ms[|ms| - 1])
  }

  /** One step of an agent handler that relays HTTP, respectively a WebSocket; resets and interim
      responses may be interjected anywhere. */
  function NextResponse(p: Phase, m: Message): Phase {
    if !IsSpoken(m) then p
    else if m.ResStart? then if p.Idle? then Body else Illegal
    else if m.ResData? then if p.Body? && m.data != [] then Body else Illegal
    else if m.ResTrailer? then if p.Body? then Trailers else Illegal
    else if m.ResEnd? then if p.Body? || p.Trailers? then Ended else Illegal
    else if m.WsOpenOK? then if p.Idle? then Relay else Illegal
    else if m.WsOpenErr? then if p.Idle? then Ended else Illegal
    else if m.WsA2C? || m.WsClose? then if p.Relay? then Relay else Illegal
    else Illegal
  }

  function Responding(ms: seq<Message>): Phase {
    if ms == [] then Idle else NextResponse(Responding(ms[..|ms| - 1]), ms[|ms| - 1])
  }

  lemma RequestingAppend(ms: seq<Message>, m: Message)
    ensures Requesting(ms + [m]) == NextRequest(Requesting(ms), m)
  {
    assert (ms + [m])[..|ms|] == ms;
  }

  lemma RespondingAppend(ms: seq<Message>, m: Message)
    ensures Responding(ms + [m]) == NextResponse(Responding(ms), m)
  {
    assert (ms + [m])[..|ms|] == ms;
  }

  // ----- requests -----

  lemma {:induction false} IdleRequestIsResets(ms: seq<Message>)
    requires Requesting(ms).Idle?
    ensures RequestBytes(ms) == []
  {
    if ms == [] {
    } else {
      IdleRequestIsResets(ms[..|ms| - 1]);
    }
  }

  lemma {:induction false} LegalRequestPrefix(ms: seq<Message>, k: nat)
    requires k <= |ms| && !Requesting(ms).Illegal?
    ensures !Requesting(ms[..k]).Illegal?
    decreases |ms|
  {
    if k == |ms| {
      assert ms[..k] == ms;
    } else {
      LegalRequestPrefix(ms[..|ms| - 1], k);
      assert ms[..|ms| - 1][..k] == ms[..k];
    }
  }

  /** After ReqEnd a gateway handler sends no further body bytes. */
  lemma {:induction false} NothingAfterReqEnd(ms: seq<Message>, i: nat)
    requires i < |ms| && ms[i].ReqEnd? && !Requesting(ms).Illegal?
    ensures Requesting(ms).Ended? && RequestBytes(ms[..i + 1]) == RequestBytes(ms)
  {
    if i == |ms| - 1 {
      assert ms[..i + 1] == ms;
    } else {
      var n := |ms| - 1;
      NothingAfterReqEnd(ms[..n], i);
      assert ms[..n][..i + 1] == ms[..i + 1];
    }
  }

  lemma {:induction false} RequestBytesConcat(a: seq<Message>, b: seq<Message>)
    ensures RequestBytes(a + b) == RequestBytes(a) + RequestBytes(b)
  {
    if b == [] {
      assert a + b == a;
    } else {
      var n := |b| - 1;
      assert a + b == (a + b[..n]) + [b[n]];
      assert b == b[..n] + [b[n]];
      RequestBytesAppend(a + b[..n], b[n]);
      RequestBytesConcat(a, b[..n]);
    }
  }

  /** From its ReqStart to its ReqEnd a request carries every body byte its handler sent. */
  lemma RequestSegment(ms: seq<Message>, b: nat, e: nat)
    requires b < e < |ms| && ms[b].ReqStart? && ms[e].ReqEnd? && !Requesting(ms).Illegal?
    ensures RequestBytes(ms[b..e + 1]) == RequestBytes(ms)
  {
    IdleBefore(ms, b);
    IdleRequestIsResets(ms[..b]);
    NothingAfterReqEnd(ms, e);
    BytesSplit(ms, b, e + 1);
  }

  /** Nothing but resets comes before a request's ReqStart. */
  lemma IdleBefore(ms: seq<Message>, b: nat)
    requires b < |ms| && ms[b].ReqStart? && !Requesting(ms).Illegal?
    ensures Requesting(ms[..b]).Idle?
  {
    LegalRequestPrefix(ms, b + 1);
    assert ms[..b + 1] == ms[..b] + [ms[b]];
    RequestingAppend(ms[..b], ms[b]);
  }

  lemma BytesSplit(ms: seq<Message>, b: nat, e: nat)
    requires b <= e <= |ms|
    ensures RequestBytes(ms[..e]) == RequestBytes(ms[..b]) + RequestBytes(ms[b..e])
  {
    assert ms[..e] == ms[..b] + ms[b..e];
    RequestBytesConcat(ms[..b], ms[b..e]);
  }

  /** A stretch of a request from its ReqStart to its ReqEnd lacks no body byte. */
  lemma WholeRequest(sent: seq<Message>, base: nat, taken: seq<Message>)
    requires Stretch(sent, base, taken) && !Requesting(sent).Illegal?
    requires taken != [] && taken[0].ReqStart? && taken[|taken| - 1].ReqEnd?
    ensures RequestBytes(taken) == RequestBytes(sent) && Requesting(sent).Ended?
  {
    var e := base + |taken| - 1;
    assert sent[base] == taken[0] && sent[e] == taken[|taken| - 1];
    RequestSegment(sent, base, e);
    NothingAfterReqEnd(sent, e);
  }

  /** A stretch of a request that opens with its ReqStart carries a beginning of the body. */
  lemma StretchBytes(sent: seq<Message>, base: nat, taken: seq<Message>)
    requires Stretch(sent, base, taken) && !Requesting(sent).Illegal? && taken != [] && taken[0].ReqStart?
    ensures RequestBytes(taken) <= RequestBytes(sent)
  {
    assert sent[base] == taken[0];
    IdleBefore(sent, base);
    IdleRequestIsResets(sent[..base]);
    BytesOfStretch(sent, base, taken);
  }

  lemma BytesOfStretch(sent: seq<Message>, base: nat, taken: seq<Message>)
    requires Stretch(sent, base, taken) && RequestBytes(sent[..base]) == []
    ensures RequestBytes(taken) <= RequestBytes(sent)
  {
    var upTo, rest := sent[..base] + taken, sent[base + |taken|..];
    assert sent == upTo + rest;
    RequestBytesConcat(sent[..base], taken);
    RequestBytesConcat(upTo, rest);
  }

  /** A gateway handler opens its stream with at most one ReqStart. */
  lemma {:induction false} OneReqStart(ms: seq<Message>, i: nat, j: nat)
    requires i < |ms| && j < |ms| && ms[i].ReqStart? && ms[j].ReqStart? && !Requesting(ms).Illegal?
    ensures i == j
  {
    if i != j {
      var lo, hi := if i < j then i else j, if i < j then j else i;
      IdleBefore(ms, hi);
      StartedNotIdle(ms[..hi], lo);
    }
  }

  lemma {:induction false} StartedNotIdle(ms: seq<Message>, i: nat)
    requires i < |ms| && ms[i].ReqStart?
    ensures !Requesting(ms).Idle?
  {
    if i == |ms| - 1 {
    } else {
      StartedNotIdle(ms[..|ms| - 1], i);
    }
  }

  // ----- responses -----

  lemma {:induction false} RespondingSpoken(ms: seq<Message>)
    ensures Responding(Spoken(ms)) == Responding(ms)
    ensures ResponseBytes(Spoken(ms)) == ResponseBytes(ms)
  {
    if ms == [] {
    } else {
      var before, m := ms[..|ms| - 1], ms[|ms| - 1];
      RespondingSpoken(before);
      assert ms == before + [m];
      SpokenAppend(before, m);
      RespondingAppend(before, m);
      ResponseBytesAppend(before, m);
      RespondingAppend(Spoken(before), m);
      ResponseBytesAppend(Spoken(before), m);
      assert !IsSpoken(m) ==> Spoken(before) + [] == Spoken(before);
    }
  }

  lemma {:induction false} NothingAfterResEnd(ms: seq<Message>, i: nat)
    requires i < |ms| && ms[i].ResEnd? && !Responding(ms).Illegal?
    ensures Responding(ms).Ended? && ResponseBytes(ms[..i + 1]) == ResponseBytes(ms)
  {
    if i == |ms| - 1 {
      assert ms[..i + 1] == ms;
    } else {
      var n := |ms| - 1;
      NothingAfterResEnd(ms[..n], i);
      assert ms[..n][..i + 1] == ms[..i + 1];
    }
  }

  /** How far the gateway's HTTP handler has got, and how it left. */
  datatype ClientPhase = AwaitingStart | Streaming | LeftByEnd | LeftEarly

  function NextClient(p: ClientPhase, m: Message): ClientPhase {
    match p
    case AwaitingStart =>
      if m.ResStart? then (if m.interim || m.informational then AwaitingStart else Streaming) else LeftEarly
    case Streaming =>
      if m.ResEnd? then LeftByEnd else if m.Rst? then LeftEarly else Streaming
    case _ => p
  }

  function ClientAfter(ms: seq<Message>): ClientPhase {
    if ms == [] then AwaitingStart else NextClient(ClientAfter(ms[..|ms| - 1]), ms[|ms| - 1])
  }

  /** The body bytes the handler has written to its client after receiving `ms`. */
  function Written(ms: seq<Message>): Bytes {
    if ms == [] then []
    else
      var n := |ms| - 1;
      Written(ms[..n]) + (if ClientAfter(ms[..n]).Streaming? && ms[n].ResData? then ms[n].data else [])
  }

  lemma ClientAppend(ms: seq<Message>, m: Message)
    ensures ClientAfter(ms + [m]) == NextClient(ClientAfter(ms), m)
    ensures Written(ms + [m]) ==
            Written(ms) + (if ClientAfter(ms).Streaming? && m.ResData? then m.data else [])
  {
    assert (ms + [m])[..|ms|] == ms;
  }

  /** The client gets nothing but received body bytes, from the first one on without a gap. */
  lemma {:induction false} WrittenIsReceived(ms: seq<Message>)
    ensures Written(ms) <= ResponseBytes(ms)
    ensures ClientAfter(ms).AwaitingStart? ==> Written(ms) == ResponseBytes(ms) == []
    ensures ClientAfter(ms).Streaming? ==> Written(ms) == ResponseBytes(ms)
  {
    if ms == [] {
    } else {
      WrittenIsReceived(ms[..|ms| - 1]);
    }
  }

  /** Leaving through ResEnd, the handler wrote exactly what preceded that ResEnd. */
  lemma {:induction false} LeftByEndAt(ms: seq<Message>) returns (i: nat)
    requires ClientAfter(ms).LeftByEnd?
    ensures i < |ms| && ms[i].ResEnd? && Written(ms) == ResponseBytes(ms[..i + 1])
  {
    var n := |ms| - 1;
    if ClientAfter(ms[..n]).LeftByEnd? {
      i := LeftByEndAt(ms[..n]);
      assert ms[..n][..i + 1] == ms[..i + 1];
    } else {
      i := n;
      WrittenIsReceived(ms[..n]);
      assert ms[..i + 1] == ms;
    }
  }

  /** An agent handler reports one relay mode at most, and goes on relaying from there. */
  lemma {:induction false} OneOpenOK(ms: seq<Message>, a: Mode, b: Mode)
    requires WsOpenOK(a) in ms && WsOpenOK(b) in ms && !Responding(ms).Illegal?
    ensures a == b
  {
    var n := |ms| - 1;
    if WsOpenOK(a) in ms[..n] && WsOpenOK(b) in ms[..n] {
      OneOpenOK(ms[..n], a, b);
    } else if WsOpenOK(a) in ms[..n] {
      OpenOKRelays(ms[..n], a);
    } else if WsOpenOK(b) in ms[..n] {
      OpenOKRelays(ms[..n], b);
    }
  }

  lemma {:induction false} OpenOKRelays(ms: seq<Message>, a: Mode)
    requires WsOpenOK(a) in ms && !Responding(ms).Illegal?
    ensures Responding(ms).Relay?
  {
    var n := |ms| - 1;
    if WsOpenOK(a) in ms[..n] { OpenOKRelays(ms[..n], a); }
  }
}
