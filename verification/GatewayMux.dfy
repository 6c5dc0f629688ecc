/** The gateway's end of one tunnel as a machine of atomic steps.

    A step is what one goroutine does between two points where another may run: one lock
    section, one channel operation, one `close`. `Enabled` says when a step may happen and
    `Apply` what it does; which enabled step happens next is left open, as the scheduler and
    Go's `select` leave it open. `offered`, `taken`, `sent`, `inbox` and `outbox` are histories. */
module GatewayMux {
  import opened Messages
  import opened Options
  import opened Scripts
  import opened WsMessages

  const RECEIVE_QUEUE_FRAMES: nat := 640

  /** Who closed a stream: its handler on the way out, the watcher of its client, the sweep
      that follows the loss of the agent, or the read loop on overflow. */
  datatype Cause = HandlerExit | Cancelled | AgentGone | Overflowed

  /** The life of `closeOnce`: entered with the error recorded, `closedCh` closed, map entry dropped. */
  datatype Once = Fresh | Begun(cause: Cause) | Shut(cause: Cause) | Done(cause: Cause)

  /** What goroutines other than the read loop do to one stream. */
  datatype Act =
    | Begin(cause: Cause)  // enter closeOnce and record the error
    | CloseChannel
    | Forget               // drop the map entry and leave closeOnce
    | Recv
    | Leave                // the handler returns from its receive loop
    | Send(m: Message)
    | RelayChunk(data: Bytes, ok: bool)       // read from the client's body, then send or fail to
    | RelayMessage(said: WsMessage, ok: bool) // likewise from the client's WebSocket
    | HandlerReset         // the handler gives up: a reset, then the way out
    | WatcherReset         // the goroutine watching the client sends its reset
    | EmitReset            // the goroutine started by an overflow sends the reset

  datatype Stream = Stream(
    id: nat,
    mode: RelayMode,        // the relay mode its WebSocket handler expects
    rx: seq<Message>,
    once: Once,
    left: bool,             // the handler has returned from its receive loop
    watcherSpent: bool,     // the watcher goroutine has used its one reset
    resetOwed: bool,        // an overflow reset waits in its own goroutine
    offered: seq<Message>,  // frames the read loop looked up for this stream
    taken: seq<Message>,    // frames the handler received
    sent: seq<Message>,     // frames written for this stream
    read: Bytes,            // read from the body of the client's request
    said: seq<WsMessage>,   // read from the client's WebSocket
    hushed: bool,           // the goroutine reading the client's WebSocket has stopped
    acceptedOpen: nat,      // frames accepted by the time closedCh was closed
    base: nat)              // frames with this id read before the stream existed
  {
    predicate Closed() { once.Shut? || once.Done? }

    function Accepted(): seq<Message> { taken + rx }

    /** What the handler took of the frames queued before the stream was closed. */
    function Heard(): seq<Message> {
      if Closed() && acceptedOpen < |taken| then taken[..acceptedOpen] else taken
    }

    /** The agent's first answer is the relay mode this handler expects. */
    predicate Opened() { taken != [] && taken[0] == WsOpenOK(mode) }

    /** The agent's first answer to a WebSocket request is neither that nor a refusal. */
    predicate Mismatched() {
      Requesting(sent).Relay? && taken != [] && !Opened() && !taken[0].WsOpenErr?
    }

    predicate Can(a: Act) {
      match a
      case Begin(cause) => once.Fresh? && (cause.HandlerExit? ==> left)
      case CloseChannel => once.Begun?
      case Forget => once.Shut?
      case Recv =>
        && !left && rx != [] && !Requesting(sent).Idle?
        && (Requesting(sent).Relay? && taken != [] ==> Opened())
      case Leave => !left && (Mismatched() ==> Closed())
      case Send(m) =>
        && !m.Rst? && !m.ReqData? && !m.WsC2A? && !Requesting(sent + [m]).Illegal?
        && (if m.WsClose? then Opened() else !left)
      case RelayChunk(data, _) => !left && Requesting(sent).Body? && data != []
      case RelayMessage(m, _) => Opened() && Requesting(sent).Relay? && !hushed && (mode.Raw? ==> m.data != [])
      case HandlerReset => !left
      case WatcherReset => !watcherSpent && !Requesting(sent).Idle?
      case EmitReset => resetOwed
    }

    function Do(a: Act): Stream
      requires Can(a)
    {
      match a
      case Begin(cause) => this.(once := Begun(cause))
      case CloseChannel => this.(once := Shut(once.cause), acceptedOpen := |taken| + |rx|)
      case Forget => this.(once := Done(once.cause), resetOwed := once.cause.Overflowed?)
      case Recv => this.(rx := rx[1..], taken := taken + [rx[0]])
      case Leave => this.(left := true)
      case Send(m) => this.(sent := sent + [m])
      case RelayChunk(data, ok) =>
        if ok then this.(read := read + data, sent := sent + [ReqData(data)])
        else this.(read := read + data, left := true)
      case RelayMessage(m, ok) =>
        if !ok then this.(said := said + [m], hushed := true)
        else if Relays(mode, m) then this.(said := said + [m], sent := sent + [WsC2A(Wrapped(mode, m))])
        else this.(said := said + [m])
      case HandlerReset => this.(left := true, sent := sent + [Rst])
      case WatcherReset => this.(watcherSpent := true, sent := sent + [Rst])
      case EmitReset => this.(resetOwed := false, sent := sent + [Rst])
    }

    /** The frame an act puts on the wire, if any. */
    function Says(a: Act): seq<Packet> {
      if a.Send? then [Packet(id, a.m)]
      else if a.RelayMessage? then
        (if a.ok && Relays(mode, a.said) then [Packet(id, WsC2A(Wrapped(mode, a.said)))] else [])
      else if a.RelayChunk? then (if a.ok then [Packet(id, ReqData(a.data))] else [])
      else if a.HandlerReset? || a.WatcherReset? || a.EmitReset? then [Packet(id, Rst)]
      else []
    }
  }

  /** Acts on the queue and on `closeOnce`, as opposed to what the handler says and reads. */
  predicate IsQueueAct(a: Act) { a.Begin? || a.CloseChannel? || a.Forget? || a.Recv? }

  lemma TalkKeeps(o: Stream, a: Act)
    requires o.Can(a) && !IsQueueAct(a)
    ensures var p := o.Do(a);
            && p.id == o.id && p.mode == o.mode && p.base == o.base && p.rx == o.rx && p.once == o.once
            && p.offered == o.offered && p.taken == o.taken && p.acceptedOpen == o.acceptedOpen
            && (o.left ==> p.left) && (p.resetOwed ==> o.resetOwed)
  {
  }

  lemma QueueKeeps(o: Stream, a: Act)
    requires o.Can(a) && IsQueueAct(a)
    ensures var p := o.Do(a);
            && p.id == o.id && p.mode == o.mode && p.base == o.base && p.offered == o.offered
            && p.sent == o.sent && p.read == o.read && p.said == o.said && p.hushed == o.hushed
            && p.left == o.left && p.Accepted() == o.Accepted() && o.taken <= p.taken && o.Says(a) == []
  {
  }

  datatype Loop = Reading | Delivering(ref: nat, msg: Message) | Resetting(ref: nat) | Exited

  /** `closeWithErr` on the connection: closedCh closed, then the map swapped out, then each
      stream found in it closed in turn. */
  datatype Closing = Open | Signalled | Sweeping(rest: seq<nat>) | Finished

  /** What a connection is set up with: its stream limit, zero for none, and the relay mode that
      registration settled on for WebSocket streams. */
  datatype Config = Config(maxStreams: nat, mode: RelayMode)

  datatype State = State(
    config: Config,
    counter: nat,
    streams: map<nat, nat>,
    objs: seq<Stream>,
    loop: Loop,
    closing: Closing,
    inbox: seq<Packet>,
    outbox: seq<Packet>)

  datatype Label =
    | OpenStream
    | Lookup(p: Packet)
    | Enqueue
    | Drop
    | Overflow
    | ResetBegin
    | ResetDone
    | LoopExit
    | On(r: nat, act: Act)
    | ConnSignal
    | ConnSwap(order: seq<nat>)
    | SweepBegin
    | SweepNext
    | ConnFinish

  function Init(config: Config): State {
    State(config, 0, map[], [], Reading, Open, [], [])
  }

  /** `nextStream.Add(1)`, taken again when it wrapped to zero. */
  function NextId(counter: nat): nat {
    var id := (counter + 1) % 0x1_0000_0000;
    if id == 0 then 1 else id
  }

  function NewStream(id: nat, mode: RelayMode, base: nat): Stream {
    Stream(id, mode, [], Fresh, false, false, false, [], [], [], [], [], false, 0, base)
  }

  /** The stream the read loop is busy with. */
  predicate Busy(s: State) {
    (s.loop.Delivering? || s.loop.Resetting?) && s.loop.ref < |s.objs|
  }

  ghost predicate Enabled(s: State, l: Label) {
    match l
    case OpenStream => s.closing.Open? && (s.config.maxStreams > 0 ==> |s.streams| < s.config.maxStreams)
    case Lookup(p) => s.loop.Reading? && (p.stream in s.streams ==> s.streams[p.stream] < |s.objs|)
    case Enqueue => s.loop.Delivering? && Busy(s) && |s.objs[s.loop.ref].rx| < RECEIVE_QUEUE_FRAMES
    case Drop => s.loop.Delivering? && Busy(s) && s.objs[s.loop.ref].Closed()
    case Overflow =>
      && s.loop.Delivering? && Busy(s)
      && |s.objs[s.loop.ref].rx| >= RECEIVE_QUEUE_FRAMES && !s.objs[s.loop.ref].Closed()
    case ResetBegin => s.loop.Resetting? && Busy(s) && s.objs[s.loop.ref].once.Fresh?
    case ResetDone => s.loop.Resetting? && Busy(s) && s.objs[s.loop.ref].once.Done?
    case LoopExit => s.loop.Reading?
    case On(r, act) =>
      && r < |s.objs| && s.objs[r].Can(act)
      && (act.Begin? ==> act.cause.HandlerExit? || act.cause.Cancelled?)
    case ConnSignal => s.closing.Open?
    case ConnSwap(order) =>
      && s.closing.Signalled? && |order| == |s.streams|
      && (forall r :: r in order <==> r in s.streams.Values)
    case SweepBegin =>
      && s.closing.Sweeping? && s.closing.rest != [] && s.closing.rest[0] < |s.objs|
      && s.objs[s.closing.rest[0]].once.Fresh?
    case SweepNext =>
      && s.closing.Sweeping? && s.closing.rest != [] && s.closing.rest[0] < |s.objs|
      && s.objs[s.closing.rest[0]].once.Done?
    case ConnFinish => s.closing.Sweeping? && s.closing.rest == []
  }

  function ApplyOn(s: State, r: nat, act: Act): State
    requires r < |s.objs| && s.objs[r].Can(act)
  {
    s.(objs := s.objs[r := s.objs[r].Do(act)],
       outbox := s.outbox + s.objs[r].Says(act),
       streams := if act.Forget? then s.streams - {s.objs[r].id} else s.streams)
  }

  ghost function Apply(s: State, l: Label): State
    requires Enabled(s, l)
  {
    match l
    case OpenStream =>
      var id := NextId(s.counter);
      s.(counter := id, streams := s.streams[id := |s.objs|],
         objs := s.objs + [NewStream(id, s.config.mode, |For(s.inbox, id)|)])
    case Lookup(p) =>
      if p.stream in s.streams then
        var r := s.streams[p.stream];
        s.(inbox := s.inbox + [p], loop := Delivering(r, p.msg),
           objs := s.objs[r := s.objs[r].(offered := s.objs[r].offered + [p.msg])])
      else s.(inbox := s.inbox + [p])
    case Enqueue =>
      var o := s.objs[s.loop.ref];
      s.(loop := Reading, objs := s.objs[s.loop.ref := o.(rx := o.rx + [s.loop.msg])])
    case Drop => s.(loop := Reading)
    case Overflow => s.(loop := Resetting(s.loop.ref))
    case ResetBegin => ApplyOn(s, s.loop.ref, Begin(Overflowed))
    case ResetDone => s.(loop := Reading)
    case LoopExit => s.(loop := Exited)
    case On(r, act) => ApplyOn(s, r, act)
    case ConnSignal => s.(closing := Signalled)
    case ConnSwap(order) => s.(closing := Sweeping(order), streams := map[])
    case SweepBegin => ApplyOn(s, s.closing.rest[0], Begin(AgentGone))
    case SweepNext => s.(closing := Sweeping(s.closing.rest[1..]))
    case ConnFinish => s.(closing := Finished)
  }

  /** The state after a run, or None when some step of it was not enabled. */
  ghost function After(s: State, ls: seq<Label>): Option<State> {
    if ls == [] then Some(s)
    else
      match After(s, ls[..|ls| - 1])
      case None => None
      case Some(m) => if Enabled(m, ls[|ls| - 1]) then Some(Apply(m, ls[|ls| - 1])) else None
  }

  lemma AfterSnoc(s: State, ls: seq<Label>, l: Label)
    requires After(s, ls).Some? && Enabled(After(s, ls).value, l)
    ensures After(s, ls + [l]) == Some(Apply(After(s, ls).value, l))
  {
    assert (ls + [l])[..|ls|] == ls;
  }

  // ----- well-formedness -----

  /** The map points at streams that carry the id they are stored under, the read loop and the
      sweep hold real streams, and once the map has been swapped out it stays empty. */
  ghost predicate Wf(s: State) {
    && (forall id :: id in s.streams ==> s.streams[id] < |s.objs| && s.objs[s.streams[id]].id == id)
    && (s.loop.Delivering? || s.loop.Resetting? ==> s.loop.ref < |s.objs|)
    && (s.closing.Sweeping? ==> forall r :: r in s.closing.rest ==> r < |s.objs|)
    && (s.closing.Sweeping? || s.closing.Finished? ==> s.streams == map[])
  }

  lemma WfOn(s: State, r: nat, act: Act)
    requires Wf(s) && r < |s.objs| && s.objs[r].Can(act)
    ensures Wf(ApplyOn(s, r, act))
  {
    assert s.objs[r].Do(act).id == s.objs[r].id;
  }

  lemma LookupWf(s: State, p: Packet)
    requires Wf(s) && Enabled(s, Lookup(p))
    ensures Wf(Apply(s, Lookup(p)))
  {
  }

  lemma WfStep(s: State, l: Label)
    requires Wf(s) && Enabled(s, l)
    ensures Wf(Apply(s, l))
  {
    match l
    case ResetBegin => WfOn(s, s.loop.ref, Begin(Overflowed));
    case SweepBegin => WfOn(s, s.closing.rest[0], Begin(AgentGone));
    case On(r, act) => WfOn(s, r, act);
    case ConnSwap(order) =>
      forall r | r in order ensures r < |s.objs| {
        var id :| id in s.streams && s.streams[id] == r;
      }
    case SweepNext =>
      assert forall r :: r in s.closing.rest[1..] ==> r in s.closing.rest;
    case Lookup(p) => LookupWf(s, p);
    case _ =>
  }

  lemma {:induction false} WfRun(config: Config, ls: seq<Label>)
    requires After(Init(config), ls).Some?
    ensures Wf(After(Init(config), ls).value)
  {
    if ls == [] {
    } else {
      var n := |ls| - 1;
      WfRun(config, ls[..n]);
      WfStep(After(Init(config), ls[..n]).value, ls[n]);
    }
  }

  predicate Mapped(s: State, r: nat)
    requires r < |s.objs|
  {
    s.objs[r].id in s.streams && s.streams[s.objs[r].id] == r
  }
}
