/** The loops of the HTTP handlers on both sides, each against the script it has to keep to and
    the bytes it has to carry. */
module Handlers {
  import opened Messages
  import opened Scripts

  /** One `Read` of a body: some bytes, then perhaps an error. */
  datatype Verdict = More | Eof | Broken | TooLarge
  datatype Read = Read(data: Bytes, verdict: Verdict)

  /** What a body holds up to the read that ends it, and how it ends there. */
  function Content(chunks: seq<Read>): Bytes {
    if chunks == [] then []
    else chunks[0].data + (if chunks[0].verdict.More? then Content(chunks[1..]) else [])
  }

  function Ending(chunks: seq<Read>): Verdict {
    if chunks == [] then More
    else if chunks[0].verdict.More? then Ending(chunks[1..]) else chunks[0].verdict
  }

  /** After reading `read` of a body with content `all`, `rest` is still to be read. */
  ghost predicate LeftToRead(all: Bytes, end: Verdict, read: Bytes, rest: seq<Read>) {
    all == read + Content(rest) && end == Ending(rest)
  }

  lemma ReadNext(all: Bytes, end: Verdict, read: Bytes, rest: seq<Read>)
    requires rest != [] && LeftToRead(all, end, read, rest)
    ensures var more := read + rest[0].data;
            && more <= all
            && (if rest[0].verdict.More? then LeftToRead(all, end, more, rest[1..])
                else all == more && end == rest[0].verdict)
  {
    var data, tail := rest[0].data, if rest[0].verdict.More? then Content(rest[1..]) else [];
    assert Content(rest) == data + tail;
    assert read + (data + tail) == (read + data) + tail;
  }

  /** The first `limit` messages of a list. */
  function Cut(ms: seq<Message>, limit: nat): seq<Message> { if |ms| <= limit then ms else ms[..limit] }

  /** How the gateway's handler got through its request half. */
  datatype RequestExit = Sent | SendFailed | BodyTooLarge

  /** The request half of `handleClientHTTP`. Sends succeed until the stream is found closed, which
      is before the send number `closedAt`; from then on every send fails and puts nothing out. */
  method ForwardRequest(chunks: seq<Read>, hasTrailer: bool, closedAt: nat)
    returns (sent: seq<Message>, read: Bytes, exit: RequestExit)
    ensures !Requesting(sent).Illegal? && RequestBytes(sent) <= read
    ensures Requesting(sent).Ended? ==> RequestBytes(sent) == read && exit.Sent?
    ensures exit.Sent? && |sent| < closedAt ==> Requesting(sent).Ended?
    ensures exit.BodyTooLarge? && |sent| < closedAt ==> sent != [] && sent[|sent| - 1].Rst?
    ensures exit.SendFailed? ==> |sent| == closedAt
    ensures if exit.SendFailed? then read <= Content(chunks)
            else read == Content(chunks) && (exit.BodyTooLarge? <==> Ending(chunks).TooLarge?)
  {
    if closedAt == 0 {
      return [], [], SendFailed;
    }
    sent := Say([], ReqStart(true, false));
    sent, read, exit := ForwardBody(sent, chunks, closedAt);
    if exit.Sent? {
      sent := FinishRequest(sent, hasTrailer, closedAt);
    }
  }

  method ForwardBody(before: seq<Message>, chunks: seq<Read>, closedAt: nat)
    returns (sent: seq<Message>, read: Bytes, exit: RequestExit)
    requires Requesting(before).Body? && RequestBytes(before) == [] && |before| <= closedAt
    ensures Requesting(sent).Body? && RequestBytes(sent) <= read
    ensures exit.Sent? ==> RequestBytes(sent) == read
    ensures exit.BodyTooLarge? && |sent| < closedAt ==> sent != [] && sent[|sent| - 1].Rst?
    ensures |sent| <= closedAt && (exit.SendFailed? ==> |sent| == closedAt)
    ensures if exit.SendFailed? then read <= Content(chunks)
            else read == Content(chunks) && (exit.BodyTooLarge? <==> Ending(chunks).TooLarge?)
  {
    sent, read := before, [];
    var i := 0;
    while i < |chunks|
      invariant 0 <= i <= |chunks| && |sent| <= closedAt
      invariant Requesting(sent).Body? && RequestBytes(sent) == read
      invariant LeftToRead(Content(chunks), Ending(chunks), read, chunks[i..])
    {
      ReadNext(Content(chunks), Ending(chunks), read, chunks[i..]);
      assert chunks[i..][1..] == chunks[i + 1..];
      read := read + chunks[i].data;
      if |chunks[i].data| > 0 {
        if |sent| >= closedAt {
          return sent, read, SendFailed;
        }
        sent := Say(sent, ReqData(chunks[i].data));
      }
      if chunks[i].verdict.TooLarge? {
        if |sent| < closedAt {
          sent := Say(sent, Rst);
        }
        return sent, read, BodyTooLarge;
      }
      if !chunks[i].verdict.More? {
        break;
      }
      i := i + 1;
    }
    exit := Sent;
  }

  /** Trailer and end; whether these sends succeed is not looked at. */
  method FinishRequest(before: seq<Message>, hasTrailer: bool, closedAt: nat) returns (sent: seq<Message>)
    requires Requesting(before).Body? && |before| <= closedAt
    ensures sent == Cut(before + (if hasTrailer then [ReqTrailer] else []) + [ReqEnd], closedAt)
    ensures !Requesting(sent).Illegal? && RequestBytes(sent) == RequestBytes(before)
    ensures |sent| < closedAt ==> Requesting(sent).Ended?
  {
    sent := before;
    if hasTrailer && |sent| < closedAt {
      sent := Say(sent, ReqTrailer);
    }
    if |sent| < closedAt {
      sent := Say(sent, ReqEnd);
    }
  }

  method Say(sent: seq<Message>, m: Message) returns (more: seq<Message>)
    ensures more == sent + [m]
    ensures Requesting(more) == NextRequest(Requesting(sent), m)
    ensures RequestBytes(more) == RequestBytes(sent) + (if m.ReqData? then m.data else [])
  {
    RequestingAppend(sent, m);
    RequestBytesAppend(sent, m);
    more := sent + [m];
  }

  /** The response half: what the handler writes to its client and how it leaves, given the frames
      it received before a receive failed or timed out. */
  method StreamResponse(frames: seq<Message>) returns (written: Bytes, phase: ClientPhase, received: nat)
    ensures received <= |frames| && written == Written(frames[..received])
    ensures phase == ClientAfter(frames[..received])
    ensures received < |frames| ==> phase.LeftByEnd? || phase.LeftEarly?
    ensures Written(frames) == written && ClientAfter(frames) == phase
  {
    phase, received := AwaitResponse(frames);
    written, phase, received := StreamBody(frames, phase, received);
    Unheeded(frames, received);
    assert frames[..|frames|] == frames;
  }

  /** The body, from the final ResStart on. */
  method StreamBody(frames: seq<Message>, before: ClientPhase, start: nat)
    returns (written: Bytes, phase: ClientPhase, received: nat)
    requires start <= |frames| && Written(frames[..start]) == [] && before == ClientAfter(frames[..start])
    requires !before.LeftByEnd? && (before.AwaitingStart? ==> start == |frames|)
    ensures received <= |frames| && written == Written(frames[..received]) && phase == ClientAfter(frames[..received])
    ensures received < |frames| ==> phase.LeftByEnd? || phase.LeftEarly?
  {
    written, phase, received := [], before, start;
    while received < |frames| && phase.Streaming?
      invariant received <= |frames| && written == Written(frames[..received])
      invariant phase == ClientAfter(frames[..received])
      invariant phase.AwaitingStart? ==> received == |frames|
    {
      var f := frames[received];
      ClientAppend(frames[..received], f);
      assert frames[..received + 1] == frames[..received] + [f];
      received := received + 1;
      var data;
      data, phase := HandleFrame(f);
      written := written + data;
    }
  }

  /** One frame of the body: what is written to the client, and how the handler goes on. */
  method HandleFrame(f: Message) returns (data: Bytes, phase: ClientPhase)
    ensures phase == NextClient(Streaming, f) && data == if f.ResData? then f.data else []
  {
    data, phase := [], Streaming;
    if f.ResData? {
      data := f.data;
    } else if f.ResEnd? {
      phase := LeftByEnd;
    } else if f.Rst? {
      phase := LeftEarly;
    }
  }

  /** Interim responses up to the final ResStart; anything else ends the exchange. */
  method AwaitResponse(frames: seq<Message>) returns (phase: ClientPhase, received: nat)
    ensures received <= |frames| && Written(frames[..received]) == []
    ensures phase == ClientAfter(frames[..received]) && !phase.LeftByEnd?
    ensures phase.AwaitingStart? ==> received == |frames|
  {
    phase, received := AwaitingStart, 0;
    while received < |frames| && phase.AwaitingStart?
      invariant received <= |frames| && Written(frames[..received]) == []
      invariant phase == ClientAfter(frames[..received]) && !phase.LeftByEnd?
    {
      var f := frames[received];
      ClientAppend(frames[..received], f);
      assert frames[..received + 1] == frames[..received] + [f];
      received := received + 1;
      if !f.ResStart? {
        phase := LeftEarly;
      } else if !f.interim && !f.informational {
        phase := Streaming;
      }
    }
  }

  /** Once the handler has left, what else is queued for it makes no difference. */
  lemma {:induction false} Unheeded(frames: seq<Message>, k: nat)
    requires k <= |frames|
    requires k < |frames| ==> ClientAfter(frames[..k]).LeftByEnd? || ClientAfter(frames[..k]).LeftEarly?
    ensures Written(frames) == Written(frames[..k]) && ClientAfter(frames) == ClientAfter(frames[..k])
    decreases |frames|
  {
    if k == |frames| {
      assert frames[..k] == frames;
    } else {
      var n := |frames| - 1;
      assert frames[..n][..k] == frames[..k];
      assert frames[..n][..n] == frames[..n];
      Unheeded(frames[..n], k);
    }
  }

  /** The agent's side of the response, from the upstream's header on. Any read error but a failing
      send ends it as the end of the body does. */
  method RelayResponse(informational: bool, chunks: seq<Read>, hasTrailer: bool, failsAt: nat)
    returns (sent: seq<Message>, read: Bytes)
    ensures !Responding(sent).Illegal? && ResponseBytes(sent) <= read
    ensures Responding(sent).Ended? ==> ResponseBytes(sent) == read
    ensures |sent| < failsAt ==> Responding(sent).Ended? && read == Content(chunks)
    ensures read <= Content(chunks) && |sent| <= failsAt
  {
    sent, read := [], [];
    if failsAt == 0 {
      return;
    }
    sent := Answer(sent, ResStart(false, informational));
    var i := 0;
    while i < |chunks|
      invariant 0 <= i <= |chunks| && 1 <= |sent| <= failsAt
      invariant Responding(sent).Body? && ResponseBytes(sent) == read
      invariant LeftToRead(Content(chunks), Ending(chunks), read, chunks[i..])
    {
      ReadNext(Content(chunks), Ending(chunks), read, chunks[i..]);
      assert chunks[i..][1..] == chunks[i + 1..];
      read := read + chunks[i].data;
      if |chunks[i].data| > 0 {
        if |sent| >= failsAt {
          return;
        }
        sent := Answer(sent, ResData(chunks[i].data));
      }
      if !chunks[i].verdict.More? {
        break;
      }
      i := i + 1;
    }
    sent := FinishResponse(sent, hasTrailer, failsAt);
  }

  method FinishResponse(before: seq<Message>, hasTrailer: bool, failsAt: nat) returns (sent: seq<Message>)
    requires Responding(before).Body? && |before| <= failsAt
    ensures sent == Cut(before + (if hasTrailer then [ResTrailer] else []) + [ResEnd], failsAt)
    ensures !Responding(sent).Illegal? && ResponseBytes(sent) == ResponseBytes(before)
    ensures |sent| < failsAt ==> Responding(sent).Ended?
  {
    sent := before;
    if hasTrailer {
      if |sent| >= failsAt {
        return;
      }
      sent := Answer(sent, ResTrailer);
    }
    if |sent| < failsAt {
      sent := Answer(sent, ResEnd);
    }
  }

  method Answer(sent: seq<Message>, m: Message) returns (more: seq<Message>)
    ensures more == sent + [m]
    ensures Responding(more) == NextResponse(Responding(sent), m)
    ensures ResponseBytes(more) == ResponseBytes(sent) + (if m.ResData? then m.data else [])
  {
    RespondingAppend(sent, m);
    ResponseBytesAppend(sent, m);
    more := sent + [m];
  }

  /** What the body pump's `select` may come up with. */
  datatype Event = StreamClosed | RequestDone | Frame(m: Message, written: nat)

  /** The stream or the request is over, the gateway has reset it, or the pipe took less than a chunk. */
  predicate Aborts(e: Event) {
    !e.Frame? || e.m.Rst? || (e.m.ReqData? && e.written < |e.m.data|)
  }

  /** The body is over: aborted, or complete. */
  predicate Decides(e: Event) { Aborts(e) || e.m.ReqEnd? }

  ghost predicate NothingDecided(events: seq<Event>, i: nat)
    requires i <= |events|
  {
    forall k :: 0 <= k < i ==> !Decides(events[k])
  }

  /** The body pump of `handleHTTP`: it writes chunks into the pipe and closes the pipe whenever it
      returns. A write that takes fewer bytes than the chunk has fails. */
  method PumpBody(events: seq<Event>) returns (body: Bytes, cancelled: bool, closed: bool, ghost taken: seq<Message>)
    ensures closed && !cancelled ==>
              && taken != [] && taken[|taken| - 1].ReqEnd? && body == RequestBytes(taken)
              && (forall i :: 0 <= i < |taken| - 1 ==> !taken[i].ReqEnd? && !taken[i].Rst?)
    ensures !closed ==> !cancelled && body == RequestBytes(taken) && |taken| == |events|
    ensures |taken| <= |events| && forall i :: 0 <= i < |taken| ==> events[i].Frame? && events[i].m == taken[i]
    ensures cancelled <==> exists i :: 0 <= i < |events| && Aborts(events[i]) && NothingDecided(events, i)
    ensures closed <==> exists i :: 0 <= i < |events| && Decides(events[i])
    ensures body <= RequestBytes(taken)
  {
    body, cancelled, closed, taken := [], false, false, [];
    var i := 0;
    while i < |events|
      invariant 0 <= i <= |events| && |taken| == i && !closed && !cancelled
      invariant body == RequestBytes(taken)
      invariant forall k :: 0 <= k < i ==> events[k].Frame? && events[k].m == taken[k]
      invariant NothingDecided(events, i)
    {
      var e := events[i];
      i := i + 1;
      if e.Frame? {
        RequestBytesAppend(taken, e.m);
        taken := taken + [e.m];
      }
      var over, aborted;
      body, over, aborted := PumpOne(body, e);
      if over {
        cancelled, closed := aborted, true;
        return;
      }
    }
  }

  /** One event: what goes into the pipe, and whether the body is over and the request cancelled,
      be it here or by whoever ended its context. */
  method PumpOne(before: Bytes, e: Event) returns (body: Bytes, over: bool, aborted: bool)
    ensures over == Decides(e) && aborted == Aborts(e)
    ensures !aborted ==> body == before + (if e.m.ReqData? then e.m.data else [])
    ensures aborted ==> before <= body <= before + (if e.Frame? && e.m.ReqData? then e.m.data else [])
  {
    body, over, aborted := before, false, false;
    if !e.Frame? {
      over, aborted := true, true;
    } else if e.m.ReqData? && |e.m.data| > 0 {
      if e.written < |e.m.data| {
        body := body + e.m.data[..e.written];
        over, aborted := true, true;
      } else {
        body := body + e.m.data;
      }
    } else if e.m.ReqEnd? {
      over := true;
    } else if e.m.Rst? {
      over, aborted := true, true;
    }
  }

  /** What the first receive of a WebSocket handler comes up with. */
  datatype First = NoAnswer | Got(m: Message)

  /** The opening of a WebSocket stream, up to the point where relaying begins: anything but the
      expected mode ends it, and anything but the agent's own refusal ends it with a reset. */
  method OpenWebSocket(mode: RelayMode, first: First, closedAt: nat)
    returns (sent: seq<Message>, accepted: bool, received: seq<Message>)
    ensures accepted <==> closedAt > 0 && first == First.Got(WsOpenOK(mode))
    ensures received == if closedAt > 0 && first.Got? then [first.m] else []
    ensures sent == Cut([ReqStart(true, true)] + (if accepted || Declines(first) then [] else [Rst]), closedAt)
    ensures !Requesting(sent).Illegal? && (accepted ==> Requesting(sent).Relay?)
  {
    if closedAt == 0 {
      return [], false, [];
    }
    sent := Say([], ReqStart(true, true));
    received := if first.Got? then [first.m] else [];
    accepted := first.Got? && first.m.WsOpenOK? && first.m.mode == mode;
    var declined := first.Got? && first.m.WsOpenErr?;
    if !accepted && !declined && |sent| < closedAt {
      sent := Say(sent, Rst);
    }
  }

  predicate Declines(first: First) { first.Got? && first.m.WsOpenErr? }
}
