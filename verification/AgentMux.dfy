/** The agent's end of one tunnel as a machine of atomic steps, in the manner of the gateway's:
    the read loop creates a stream for any id it does not know, one handler goroutine serves
    each stream object, and streams are removed from the map by id. */
module AgentMux {
  import opened Messages
  import opened Options
  import opened Scripts
  import opened WsMessages

  const STREAM_QUEUE_FRAMES: nat := 128

  /** What the first frame made of a stream. */
  datatype Kind = Unknown | Refused | Http | Ws

  /** Where the handler goroutine of a stream is. `forgetStream` takes the map entry for the
      stream's id out first and closes whatever it found there afterwards. */
  datatype Handler = Waiting | Refusing | Running | Leaving | Removing(target: Option<nat>) | Gone

  /** The goroutine that feeds the upstream request body; `clean` when the pipe was closed while
      the request was not cancelled. */
  datatype Pump = NoPump | Pumping | PipeClosed(clean: bool)

  datatype Act =
    | SeeClosed
    | First(tcpTarget: bool)               // take and judge the first frame
    | Refuse                               // answer it with a reset
    | Take                                 // the handler, or its body pump, takes the next frame
    | TakeFailing(n: nat)                  // the upstream breaks after n bytes of a chunk
    | PumpAbort                            // the pump sees the stream closed or the request cancelled
    | Cancel                               // the request's context is cancelled
    | Emit(m: Message)
    | Interim                              // the transport reports an informational response
    | RelayChunk(data: Bytes, sent: bool)  // read from the upstream response, then send or fail to
    | RelayMessage(said: WsMessage, ok: bool)  // likewise from the target's WebSocket or connection
    | SelfReset                            // a raw relay's own reset
    | SelfClose                            // a relay closes its stream itself
    | Return

  datatype Stream = Stream(
    id: nat,
    rx: seq<Message>,
    closed: bool,
    selfClosed: bool,
    kind: Kind,
    handler: Handler,
    pump: Pump,
    cancelled: bool,
    resetSpent: bool,
    body: Bytes,             // written to the upstream request
    read: Bytes,             // read from the upstream response
    offered: seq<Message>,   // frames the read loop directed at this object
    taken: seq<Message>,     // frames its handler or body pump took
    sent: seq<Message>,      // frames its handler sent, resets and interim responses apart
    mode: Mode,              // the relay mode it reported, and relays in
    said: seq<WsMessage>,    // read from the target's WebSocket or connection
    hushed: bool,            // the goroutine reading the target has stopped
    acceptedOpen: nat,       // frames accepted by the time a relay closed the stream itself
    base: nat)               // frames with this id read before the object was made
  {
    function Accepted(): seq<Message> { taken + rx }

    /** What the handler took of the frames accepted before a relay closed the stream itself. */
    function Heard(): seq<Message> {
      if selfClosed && acceptedOpen < |taken| then taken[..acceptedOpen] else taken
    }

    function Popped(): Stream requires rx != []
    { this.(rx := rx[1..], taken := taken + [rx[0]]) }

    predicate Dispatched() { kind.Http? || kind.Ws? }

    predicate Can(a: Act) {
      match a
      case SeeClosed => handler.Waiting? && closed
      case First(_) => handler.Waiting? && kind.Unknown? && rx != []
      case Refuse => handler.Refusing?
      case Take => rx != [] && ((kind.Ws? && handler.Running?) || pump.Pumping?)
      case TakeFailing(n) => rx != [] && pump.Pumping? && rx[0].ReqData? && n < |rx[0].data|
      case PumpAbort => pump.Pumping? && (closed || cancelled)
      case Cancel => kind.Http? && !cancelled
      case Emit(m) =>
        && IsSpoken(m) && !m.ResData? && !m.WsA2C? && !Responding(sent + [m]).Illegal?
        && (if m.ResStart? || m.ResTrailer? || m.ResEnd? then kind.Http? && handler.Running? else kind.Ws?)
      case Interim => kind.Http?
      case RelayChunk(data, _) => kind.Http? && handler.Running? && Responding(sent).Body? && data != []
      case RelayMessage(m, _) =>
        kind.Ws? && Responding(sent).Relay? && !hushed && (!mode.Framed? ==> m.data != [])
      case SelfReset => kind.Ws? && !resetSpent
      case SelfClose => kind.Ws? && !selfClosed
      case Return => handler.Running?
    }

    /** The body pump's reading of one frame. */
    function Pumped(m: Message): Stream {
      if m.ReqData? then this.(body := body + m.data)
      else if m.ReqEnd? then this.(pump := PipeClosed(!cancelled))
      else if m.Rst? then this.(cancelled := true, pump := PipeClosed(false))
      else this
    }

    function Judged(m: Message, tcpTarget: bool): Stream {
      if m.ReqStart? && m.parses && m.webSocket then this.(kind := Ws, handler := Running)
      else if m.ReqStart? && m.parses && !tcpTarget then this.(kind := Http, handler := Running, pump := Pumping)
      else this.(kind := Refused, handler := Refusing)
    }

    function Do(a: Act): Stream
      requires Can(a)
    {
      match a
      case SeeClosed => this.(handler := Leaving)
      case First(tcpTarget) => Popped().Judged(rx[0], tcpTarget)
      case Refuse => this.(handler := Leaving)
      case Take => if pump.Pumping? then Popped().Pumped(rx[0]) else Popped()
      case TakeFailing(n) =>
        Popped().(body := body + rx[0].data[..n], cancelled := true, pump := PipeClosed(false))
      case PumpAbort => this.(cancelled := true, pump := PipeClosed(false))
      case Cancel => this.(cancelled := true)
      case Emit(m) => this.(sent := sent + [m], mode := if m.WsOpenOK? then m.mode else mode)
      case Interim => this
      case RelayChunk(data, ok) =>
        if ok then this.(read := read + data, sent := sent + [ResData(data)])
        else this.(read := read + data, cancelled := true, handler := Leaving)
      case RelayMessage(m, ok) =>
        if !ok then this.(said := said + [m], hushed := true)
        else if Relays(mode, m) then this.(said := said + [m], sent := sent + [WsA2C(Wrapped(mode, m))])
        else this.(said := said + [m])
      case SelfReset => this.(resetSpent := true)
      case SelfClose => this.(closed := true, selfClosed := true, acceptedOpen := |taken| + |rx|)
      case Return => this.(handler := Leaving, cancelled := true)
    }

    function Says(a: Act): seq<Packet> {
      if a.Refuse? || a.SelfReset? then [Packet(id, Rst)]
      else if a.Emit? then [Packet(id, a.m)]
      else if a.Interim? then [Packet(id, ResStart(true, true))]
      else if a.RelayChunk? && a.sent then [Packet(id, ResData(a.data))]
      else if a.RelayMessage? && a.ok && Relays(mode, a.said) then [Packet(id, WsA2C(Wrapped(mode, a.said)))]
      else []
    }
  }

  datatype Loop =
    | Reading
    | Delivering(ref: nat, msg: Message)
    | Shedding(ref: nat)               // neither select case was ready; a reset is to be sent
    | Forgetting(ref: nat)             // after that reset
    | Closing(target: Option<nat>)
    | Exited

  datatype Teardown = Up | Sweeping(rest: seq<nat>) | Swept

  datatype State = State(
    tcpTarget: bool,
    streams: map<nat, nat>,
    objs: seq<Stream>,
    loop: Loop,
    teardown: Teardown,
    inbox: seq<Packet>,
    outbox: seq<Packet>,
    shed: map<nat, nat>)     // how much an object had sent when it was first reset for a full queue

  datatype Label =
    | Accept(p: Packet)
    | Enqueue
    | Drop
    | Overflow
    | ShedReset
    | LoopForget
    | LoopClose
    | LoopExit
    | On(r: nat, act: Act)
    | HandlerForget(r: nat)
    | HandlerClose(r: nat)
    | SwapAll(order: seq<nat>)
    | SweepOne
    | SweepDone

  function Init(tcpTarget: bool): State {
    State(tcpTarget, map[], [], Reading, Up, [], [], map[])
  }

  function NewStream(id: nat, base: nat): Stream {
    Stream(id, [], false, false, Unknown, Waiting, NoPump, false, false, [], [], [], [], [],
           Neither, [], false, 0, base)
  }

  predicate ValidTarget(s: State, t: Option<nat>) {
    t.Some? ==> t.value < |s.objs|
  }

  predicate Busy(s: State) {
    s.loop.Delivering? && s.loop.ref < |s.objs|
  }

  ghost predicate Enabled(s: State, l: Label) {
    match l
    case Accept(p) => s.loop.Reading? && (p.stream in s.streams ==> s.streams[p.stream] < |s.objs|)
    case Enqueue => Busy(s) && |s.objs[s.loop.ref].rx| < STREAM_QUEUE_FRAMES
    case Drop => Busy(s) && s.objs[s.loop.ref].closed
    case Overflow =>
      Busy(s) && |s.objs[s.loop.ref].rx| >= STREAM_QUEUE_FRAMES && !s.objs[s.loop.ref].closed
    case ShedReset => s.loop.Shedding? && s.loop.ref < |s.objs|
    case LoopForget => s.loop.Forgetting? && s.loop.ref < |s.objs|
    case LoopClose => s.loop.Closing? && ValidTarget(s, s.loop.target)
    case LoopExit => s.loop.Reading?
    case On(r, act) =>
      && r < |s.objs| && s.objs[r].Can(act) && (act.First? ==> act.tcpTarget == s.tcpTarget)
      // a TCP target is read in chunks, relayed as binary messages
      && (act.RelayMessage? && s.tcpTarget ==> act.said.opcode == BINARY && act.said.data != [])
    case HandlerForget(r) => r < |s.objs| && s.objs[r].handler.Leaving?
    case HandlerClose(r) =>
      r < |s.objs| && s.objs[r].handler.Removing? && ValidTarget(s, s.objs[r].handler.target)
    case SwapAll(order) =>
      && s.loop.Exited? && s.teardown.Up? && |order| == |s.streams|
      && (forall r :: r in order <==> r in s.streams.Values)
    case SweepOne => s.teardown.Sweeping? && s.teardown.rest != [] && s.teardown.rest[0] < |s.objs|
    case SweepDone => s.teardown.Sweeping? && s.teardown.rest == []
  }

  function At(m: map<nat, nat>, id: nat): Option<nat> {
    if id in m then Some(m[id]) else None
  }

  /** `close` on a stream object: harmless on one already closed. */
  function Closed(objs: seq<Stream>, t: Option<nat>): seq<Stream>
    requires t.Some? ==> t.value < |objs|
  {
    match t
    case None => objs
    case Some(r) => objs[r := objs[r].(closed := true)]
  }

  function Accepting(s: State, p: Packet): State
    requires p.stream in s.streams ==> s.streams[p.stream] < |s.objs|
  {
    var isNew := p.stream !in s.streams;
    var r := if isNew then |s.objs| else s.streams[p.stream];
    var objs := if isNew then s.objs + [NewStream(p.stream, |For(s.inbox, p.stream)|)] else s.objs;
    s.(inbox := s.inbox + [p], streams := s.streams[p.stream := r], loop := Delivering(r, p.msg),
       objs := objs[r := objs[r].(offered := objs[r].offered + [p.msg])])
  }

  ghost function Apply(s: State, l: Label): State
    requires Enabled(s, l)
  {
    match l
    case Accept(p) => Accepting(s, p)
    case Enqueue =>
      var o := s.objs[s.loop.ref];
      s.(loop := Reading, objs := s.objs[s.loop.ref := o.(rx := o.rx + [s.loop.msg])])
    case Drop => s.(loop := Reading)
    case Overflow => s.(loop := Shedding(s.loop.ref))
    case ShedReset =>
      var o := s.objs[s.loop.ref];
      s.(loop := Forgetting(s.loop.ref), outbox := s.outbox + [Packet(o.id, Rst)],
         shed := if s.loop.ref in s.shed then s.shed else s.shed[s.loop.ref := |o.sent|])
    case LoopForget =>
      var id := s.objs[s.loop.ref].id;
      s.(loop := Closing(At(s.streams, id)), streams := s.streams - {id})
    case LoopClose => s.(loop := Reading, objs := Closed(s.objs, s.loop.target))
    case LoopExit => s.(loop := Exited)
    case On(r, act) =>
      s.(objs := s.objs[r := s.objs[r].Do(act)], outbox := s.outbox + s.objs[r].Says(act))
    case HandlerForget(r) =>
      var o := s.objs[r];
      s.(objs := s.objs[r := o.(handler := Removing(At(s.streams, o.id)))], streams := s.streams - {o.id})
    case HandlerClose(r) =>
      var objs := Closed(s.objs, s.objs[r].handler.target);
      s.(objs := objs[r := objs[r].(handler := Gone)])
    case SwapAll(order) => s.(teardown := Sweeping(order), streams := map[])
    case SweepOne =>
      s.(teardown := Sweeping(s.teardown.rest[1..]), objs := Closed(s.objs, Some(s.teardown.rest[0])))
    case SweepDone => s.(teardown := Swept)
  }

  ghost function After(s: State, ls: seq<Label>): Option<State> {
    if ls == [] then Some(s)
    else
      match After(s, ls[..|ls| - 1])
      case None => None
      case Some(m) => if Enabled(m, ls[|ls| - 1]) then Some(Apply(m, ls[|ls| - 1])) else None
  }

  predicate Mapped(s: State, r: nat)
    requires r < |s.objs|
  {
    s.objs[r].id in s.streams && s.streams[s.objs[r].id] == r
  }
}
