/** Left to itself a tunnel falls silent: once no new requests and no new data arrive, a weight
    over live streams and frames in flight falls with every step, so resets, closes and leftover
    deliveries cannot chase each other for ever. */
module Quiescence {
  import opened Messages
  import opened Options
  import opened Scripts
  import G = GatewayMux
  import A = AgentMux
  import opened Tunnel

  /** Steps that bring something new in: a request, data of a client's or an upstream's, the end of
      a relay's data, an interim response. What a handler sends of its own accord to finish what has
      been begun (trailers, ends, the answer to an opening) is not among them. */
  predicate IsInput(l: Label) {
    match l
    case Gateway(gl) => gl.OpenStream? || (gl.On? && GatewayInput(gl.act))
    case Agent(al) => al.On? && AgentInput(al.act)
  }

  predicate GatewayInput(act: G.Act) {
    act.RelayChunk? || act.RelayMessage? || (act.Send? && (act.m.ReqStart? || act.m.WsClose?))
  }

  predicate AgentInput(act: A.Act) {
    act.Interim? || act.RelayChunk? || act.RelayMessage? || (act.Emit? && act.m.WsClose?)
  }

  /** A frame towards the agent may make it create a stream object; a frame towards the gateway
      at most fills a queue. */
  const DOWN: nat := 50
  const UP: nat := 5

  // ----- the gateway's share -----

  /** How many frames a request may still need to be finished, and how many a response. */
  function RequestLeft(p: Phase): nat { if p.Body? then 2 else if p.Trailers? then 1 else 0 }

  function ResponseLeft(p: Phase): nat { if p.Idle? then 3 else RequestLeft(p) }

  function GStreamWeight(o: G.Stream): nat {
    GBaseWeight(o) + (DOWN + 1) * RequestLeft(Requesting(o.sent))
  }

  function GBaseWeight(o: G.Stream): nat {
    (match o.once
     case Fresh => DOWN + 5
     case Begun(_) => DOWN + 4
     case Shut(_) => DOWN + 3
     case Done(_) => 0)
    + (if o.resetOwed then DOWN + 1 else 0)
    + (if o.left then 0 else DOWN + 1)
    + (if o.watcherSpent then 0 else DOWN + 1)
    + |o.rx|
  }

  function GSum(objs: seq<G.Stream>): nat {
    if objs == [] then 0 else GSum(objs[..|objs| - 1]) + GStreamWeight(objs[|objs| - 1])
  }

  function GLoopWeight(l: G.Loop): nat {
    match l
    case Reading => 1
    case Delivering(_, _) => 4
    case Resetting(_) => 3
    case Exited => 0
  }

  function GClosingWeight(s: G.State): nat {
    match s.closing
    case Open => |s.streams| + 3
    case Signalled => |s.streams| + 2
    case Sweeping(rest) => |rest| + 1
    case Finished => 0
  }

  function GWeight(s: G.State): nat {
    GSum(s.objs) + GLoopWeight(s.loop) + GClosingWeight(s)
  }

  lemma {:induction false} GSumUpdate(objs: seq<G.Stream>, r: nat, o: G.Stream)
    requires r < |objs|
    ensures GSum(objs[r := o]) == GSum(objs) - GStreamWeight(objs[r]) + GStreamWeight(o)
  {
    var n := |objs| - 1;
    if r == n {
      assert objs[r := o][..n] == objs[..n];
    } else {
      assert objs[r := o][..n] == objs[..n][r := o];
      GSumUpdate(objs[..n], r, o);
    }
  }

  lemma SmallerMap(m: map<nat, nat>, k: nat)
    ensures |m - {k}| <= |m|
  {
    assert (m - {k}).Keys == m.Keys - {k};
    if k in m {
      assert |m.Keys - {k}| == |m.Keys| - 1;
    } else {
      assert m.Keys - {k} == m.Keys;
    }
  }

  lemma GActFalls(o: G.Stream, act: G.Act)
    requires o.Can(act) && !GatewayInput(act)
    ensures GStreamWeight(o.Do(act)) + DOWN * |o.Says(act)| < GStreamWeight(o)
  {
    if act.Send? {
      RequestingAppend(o.sent, act.m);
    } else {
      RequestingAppend(o.sent, Rst);
      GOtherActFalls(o, act);
    }
  }

  lemma GOtherActFalls(o: G.Stream, act: G.Act)
    requires o.Can(act) && !act.Send? && !act.RelayChunk? && !act.RelayMessage?
    ensures GBaseWeight(o.Do(act)) + DOWN * |o.Says(act)| < GBaseWeight(o)
    ensures o.Do(act).sent == o.sent || o.Do(act).sent == o.sent + [Rst]
  {
  }

  lemma GOnFalls(s: G.State, r: nat, act: G.Act)
    requires r < |s.objs| && s.objs[r].Can(act) && !GatewayInput(act)
    ensures var t := G.ApplyOn(s, r, act);
            && GWeight(t) + DOWN * |s.objs[r].Says(act)| < GWeight(s)
            && t.outbox == s.outbox + s.objs[r].Says(act) && t.inbox == s.inbox
  {
    GActFalls(s.objs[r], act);
    GSumUpdate(s.objs, r, s.objs[r].Do(act));
    SmallerMap(s.streams, s.objs[r].id);
  }

  lemma GDeliveryFalls(s: G.State, l: G.Label)
    requires G.Enabled(s, l) && (l.Enqueue? || l.Drop? || l.Overflow? || l.ResetDone? || l.LoopExit?)
    ensures var t := G.Apply(s, l); GWeight(t) < GWeight(s) && t.outbox == s.outbox && t.inbox == s.inbox
  {
    if l.Enqueue? { GEnqueueFalls(s); }
  }

  lemma GEnqueueFalls(s: G.State)
    requires G.Enabled(s, G.Enqueue)
    ensures var t := G.Apply(s, G.Enqueue);
            GWeight(t) < GWeight(s) && t.outbox == s.outbox && t.inbox == s.inbox
  {
    var o := s.objs[s.loop.ref];
    GPushWeighsOne(o, s.loop.msg);
    GSumUpdate(s.objs, s.loop.ref, o.(rx := o.rx + [s.loop.msg]));
  }

  lemma GPushWeighsOne(o: G.Stream, m: Message)
    ensures GStreamWeight(o.(rx := o.rx + [m])) == GStreamWeight(o) + 1
  {
  }

  lemma GClosingFalls(s: G.State, l: G.Label)
    requires G.Enabled(s, l) && (l.ConnSignal? || l.ConnSwap? || l.SweepNext? || l.ConnFinish?)
    ensures var t := G.Apply(s, l); GWeight(t) < GWeight(s) && t.outbox == s.outbox && t.inbox == s.inbox
  {
  }

  lemma GLookupFalls(s: G.State, p: Packet)
    requires G.Enabled(s, G.Lookup(p))
    ensures var t := G.Apply(s, G.Lookup(p));
            GWeight(t) <= GWeight(s) + 3 && t.outbox == s.outbox && |t.inbox| == |s.inbox| + 1
  {
    if p.stream in s.streams {
      var r := s.streams[p.stream];
      var o := s.objs[r].(offered := s.objs[r].offered + [p.msg]);
      GOfferWeighsNothing(s.objs[r], o.offered);
      GSumUpdate(s.objs, r, o);
    }
  }

  lemma GOfferWeighsNothing(o: G.Stream, offered: seq<Message>)
    ensures GStreamWeight(o.(offered := offered)) == GStreamWeight(o)
  {
  }

  // ----- the agent's share -----

  function HandlerWeight(h: A.Handler): nat {
    match h
    case Waiting => UP + 5
    case Refusing => UP + 4
    case Running => 4
    case Leaving => 3
    case Removing(_) => 2
    case Gone => 0
  }

  function ReserveWeight(o: A.Stream): nat {
    (if o.pump.NoPump? then 3 else if o.pump.Pumping? then 2 else 0)
    + (if o.resetSpent then 0 else UP + 1)
    + (if o.selfClosed then 0 else 1)
    + (if o.cancelled then 0 else 1)
  }

  function AStreamWeight(o: A.Stream): nat {
    ABaseWeight(o) + (UP + 1) * ResponseLeft(Responding(o.sent))
  }

  function ABaseWeight(o: A.Stream): nat {
    HandlerWeight(o.handler) + ReserveWeight(o) + |o.rx|
  }

  lemma PushWeighsOne(o: A.Stream, m: Message)
    ensures AStreamWeight(o.(rx := o.rx + [m])) == AStreamWeight(o) + 1
  {
  }

  lemma HandlerWeighs(o: A.Stream, h: A.Handler)
    ensures AStreamWeight(o.(handler := h)) == AStreamWeight(o) - HandlerWeight(o.handler) + HandlerWeight(h)
  {
  }

  function ASum(objs: seq<A.Stream>): nat {
    if objs == [] then 0 else ASum(objs[..|objs| - 1]) + AStreamWeight(objs[|objs| - 1])
  }

  function ALoopWeight(l: A.Loop): nat {
    match l
    case Reading => 1
    case Delivering(_, _) => UP + 5
    case Shedding(_) => UP + 4
    case Forgetting(_) => 3
    case Closing(_) => 2
    case Exited => 0
  }

  function ATeardownWeight(s: A.State): nat {
    match s.teardown
    case Up => |s.streams| + 3
    case Sweeping(rest) => |rest| + 1
    case Swept => 0
  }

  function AWeight(s: A.State): nat {
    ASum(s.objs) + ALoopWeight(s.loop) + ATeardownWeight(s)
  }

  lemma {:induction false} ASumUpdate(objs: seq<A.Stream>, r: nat, o: A.Stream)
    requires r < |objs|
    ensures ASum(objs[r := o]) == ASum(objs) - AStreamWeight(objs[r]) + AStreamWeight(o)
  {
    var n := |objs| - 1;
    if r == n {
      assert objs[r := o][..n] == objs[..n];
    } else {
      assert objs[r := o][..n] == objs[..n][r := o];
      ASumUpdate(objs[..n], r, o);
    }
  }

  lemma AConsumeFalls(o: A.Stream, act: A.Act)
    requires o.Can(act) && (act.First? || act.Take? || act.TakeFailing?)
    ensures AStreamWeight(o.Do(act)) < AStreamWeight(o) && o.Says(act) == []
  {
    if act.First? {
      JudgingFalls(o.Popped(), o.rx[0], act.tcpTarget);
    } else if act.Take? {
      PumpingFalls(o.Popped(), o.rx[0]);
    }
  }

  lemma JudgingFalls(o: A.Stream, m: Message, tcpTarget: bool)
    requires o.handler.Waiting? && o.kind.Unknown?
    ensures AStreamWeight(o.Judged(m, tcpTarget)) <= AStreamWeight(o)
  {
    var p := o.Judged(m, tcpTarget);
    assert p == o.(kind := p.kind, handler := p.handler, pump := p.pump);
    assert p.handler.Running? || p.handler.Refusing?;
    assert p.pump == o.pump || p.pump.Pumping?;
    RunningWeighsLess(o, p);
  }

  lemma RunningWeighsLess(o: A.Stream, p: A.Stream)
    requires o.handler.Waiting? && (p.handler.Running? || p.handler.Refusing?)
    requires p == o.(kind := p.kind, handler := p.handler, pump := p.pump)
    requires p.pump == o.pump || (p.pump.Pumping? && p.handler.Running?)
    ensures AStreamWeight(p) <= AStreamWeight(o)
  {
    assert p.rx == o.rx && p.sent == o.sent;
    assert HandlerWeight(p.handler) + 1 <= HandlerWeight(o.handler);
  }

  lemma PumpingFalls(o: A.Stream, m: Message)
    ensures o.pump.Pumping? ==> AStreamWeight(o.Pumped(m)) <= AStreamWeight(o)
  {
  }

  lemma AActFalls(o: A.Stream, act: A.Act)
    requires o.Can(act) && !AgentInput(act)
    ensures AStreamWeight(o.Do(act)) + UP * |o.Says(act)| < AStreamWeight(o)
  {
    if act.First? || act.Take? || act.TakeFailing? {
      AConsumeFalls(o, act);
    } else if act.Emit? {
      RespondingAppend(o.sent, act.m);
    } else {
      AOtherActFalls(o, act);
    }
  }

  lemma AOtherActFalls(o: A.Stream, act: A.Act)
    requires o.Can(act) && !AgentInput(act) && !act.First? && !act.Take? && !act.TakeFailing? && !act.Emit?
    ensures ABaseWeight(o.Do(act)) + UP * |o.Says(act)| < ABaseWeight(o) && o.Do(act).sent == o.sent
  {
  }

  lemma AOnFalls(s: A.State, r: nat, act: A.Act)
    requires A.Enabled(s, A.On(r, act)) && !AgentInput(act)
    ensures var t := A.Apply(s, A.On(r, act));
            && AWeight(t) + UP * |s.objs[r].Says(act)| < AWeight(s)
            && t.outbox == s.outbox + s.objs[r].Says(act) && t.inbox == s.inbox
  {
    AActFalls(s.objs[r], act);
    ASumUpdate(s.objs, r, s.objs[r].Do(act));
  }

  /** Closing an object changes no weight. */
  lemma AClosedWeighsTheSame(objs: seq<A.Stream>, t: Option<nat>)
    requires t.Some? ==> t.value < |objs|
    ensures ASum(A.Closed(objs, t)) == ASum(objs) && |A.Closed(objs, t)| == |objs|
    ensures forall r :: 0 <= r < |objs| ==> A.Closed(objs, t)[r].(closed := true) == objs[r].(closed := true)
  {
    if t.Some? { ASumUpdate(objs, t.value, objs[t.value].(closed := true)); }
  }

  lemma ADeliveryFalls(s: A.State, l: A.Label)
    requires A.Enabled(s, l) && (l.Enqueue? || l.Drop? || l.LoopExit?)
    ensures var t := A.Apply(s, l); AWeight(t) < AWeight(s) && t.outbox == s.outbox && t.inbox == s.inbox
  {
    if l.Enqueue? {
      var o := s.objs[s.loop.ref];
      ASumUpdate(s.objs, s.loop.ref, o.(rx := o.rx + [s.loop.msg]));
      PushWeighsOne(o, s.loop.msg);
    }
  }

  lemma AForgetFalls(s: A.State, l: A.Label)
    requires A.Enabled(s, l) && (l.LoopForget? || l.LoopClose?)
    ensures var t := A.Apply(s, l); AWeight(t) < AWeight(s) && t.outbox == s.outbox && t.inbox == s.inbox
  {
    if l.LoopForget? {
      SmallerMap(s.streams, s.objs[s.loop.ref].id);
    } else {
      AClosedWeighsTheSame(s.objs, s.loop.target);
    }
  }

  lemma AOverflowFalls(s: A.State)
    requires A.Enabled(s, A.Overflow)
    ensures var t := A.Apply(s, A.Overflow); AWeight(t) < AWeight(s) && t.outbox == s.outbox && t.inbox == s.inbox
  {
  }

  lemma AShedFalls(s: A.State)
    requires A.Enabled(s, A.ShedReset)
    ensures var t := A.Apply(s, A.ShedReset);
            AWeight(t) + UP < AWeight(s) && |t.outbox| == |s.outbox| + 1 && t.inbox == s.inbox
  {
  }

  lemma AHandlerForgetFalls(s: A.State, r: nat)
    requires A.Enabled(s, A.HandlerForget(r))
    ensures var t := A.Apply(s, A.HandlerForget(r));
            AWeight(t) < AWeight(s) && t.outbox == s.outbox && t.inbox == s.inbox
  {
    var o, h := s.objs[r], A.Removing(A.At(s.streams, s.objs[r].id));
    ASumUpdate(s.objs, r, o.(handler := h));
    HandlerWeighs(o, h);
    SmallerMap(s.streams, o.id);
  }

  lemma AHandlerCloseFalls(s: A.State, r: nat)
    requires A.Enabled(s, A.HandlerClose(r))
    ensures var t := A.Apply(s, A.HandlerClose(r));
            AWeight(t) < AWeight(s) && t.outbox == s.outbox && t.inbox == s.inbox
  {
    var objs := A.Closed(s.objs, s.objs[r].handler.target);
    AClosedWeighsTheSame(s.objs, s.objs[r].handler.target);
    assert objs[r].(closed := true) == s.objs[r].(closed := true);
    assert objs[r].handler == s.objs[r].handler;
    ASumUpdate(objs, r, objs[r].(handler := A.Gone));
    HandlerWeighs(objs[r], A.Gone);
  }

  lemma ATeardownFalls(s: A.State, l: A.Label)
    requires A.Enabled(s, l) && (l.SwapAll? || l.SweepOne? || l.SweepDone?)
    ensures var t := A.Apply(s, l); AWeight(t) < AWeight(s) && t.outbox == s.outbox && t.inbox == s.inbox
  {
    if l.SweepOne? { AClosedWeighsTheSame(s.objs, Some(s.teardown.rest[0])); }
  }

  lemma AAcceptFalls(s: A.State, p: Packet)
    requires A.Enabled(s, A.Accept(p))
    ensures var t := A.Apply(s, A.Accept(p));
            AWeight(t) < AWeight(s) + DOWN && t.outbox == s.outbox && |t.inbox| == |s.inbox| + 1
  {
    var isNew := p.stream !in s.streams;
    var r := if isNew then |s.objs| else s.streams[p.stream];
    var o := A.NewStream(p.stream, |For(s.inbox, p.stream)|);
    var objs := if isNew then s.objs + [o] else s.objs;
    assert isNew ==> objs[..|s.objs|] == s.objs && AStreamWeight(o) == 5 * UP + 14;
    ASumUpdate(objs, r, objs[r].(offered := objs[r].offered + [p.msg]));
    assert |s.streams[p.stream := r]| <= |s.streams| + 1;
  }

  // ----- the whole -----

  /** A side has read no more than the other has written. */
  ghost predicate InFlight(s: State) {
    |s.a.inbox| <= |s.g.outbox| && |s.g.inbox| <= |s.a.outbox|
  }

  ghost function Weight(s: State): nat
    requires InFlight(s)
  {
    GWeight(s.g) + AWeight(s.a)
    + DOWN * (|s.g.outbox| - |s.a.inbox|) + UP * (|s.a.outbox| - |s.g.inbox|)
  }

  lemma GatewayFalls(s: State, gl: G.Label)
    requires InFlight(s) && Enabled(s, Gateway(gl)) && !IsInput(Gateway(gl))
    ensures InFlight(Apply(s, Gateway(gl))) && Weight(Apply(s, Gateway(gl))) < Weight(s)
  {
    match gl
    case Lookup(p) => GLookupFalls(s.g, p);
    case On(r, act) => GOnFalls(s.g, r, act);
    case ResetBegin => GOnFalls(s.g, s.g.loop.ref, G.Begin(G.Overflowed));
    case SweepBegin => GOnFalls(s.g, s.g.closing.rest[0], G.Begin(G.AgentGone));
    case Enqueue | Drop | Overflow | ResetDone | LoopExit => GDeliveryFalls(s.g, gl);
    case _ => GClosingFalls(s.g, gl);
  }

  lemma AgentFalls(s: State, al: A.Label)
    requires InFlight(s) && Enabled(s, Agent(al)) && !IsInput(Agent(al))
    ensures InFlight(Apply(s, Agent(al))) && Weight(Apply(s, Agent(al))) < Weight(s)
  {
    match al
    case Accept(p) => AAcceptFalls(s.a, p);
    case On(r, act) => AOnFalls(s.a, r, act);
    case Overflow => AOverflowFalls(s.a);
    case ShedReset => AShedFalls(s.a);
    case HandlerForget(r) => AHandlerForgetFalls(s.a, r);
    case HandlerClose(r) => AHandlerCloseFalls(s.a, r);
    case SwapAll(_) | SweepOne | SweepDone => ATeardownFalls(s.a, al);
    case LoopForget | LoopClose => AForgetFalls(s.a, al);
    case _ => ADeliveryFalls(s.a, al);
  }

  lemma StepFalls(s: State, l: Label)
    requires InFlight(s) && Enabled(s, l) && !IsInput(l)
    ensures InFlight(Apply(s, l)) && Weight(Apply(s, l)) < Weight(s)
  {
    match l
    case Gateway(gl) => GatewayFalls(s, gl);
    case Agent(al) => AgentFalls(s, al);
  }

  /** Whatever a tunnel has got into, it can take no more steps than its weight before something
      new has to arrive: the exchange of resets always dies out. */
  lemma {:induction false} ExchangeDiesOut(s: State, ls: seq<Label>)
    requires InFlight(s) && After(s, ls).Some? && forall l :: l in ls ==> !IsInput(l)
    ensures InFlight(After(s, ls).value) && |ls| + Weight(After(s, ls).value) <= Weight(s)
  {
    if ls == [] {
    } else {
      var n := |ls| - 1;
      ExchangeDiesOut(s, ls[..n]);
      StepFalls(After(s, ls[..n]).value, ls[n]);
    }
  }

  /** Every state a run can reach is such a state. */
  lemma ReachableIsInFlight(config: G.Config, tcpTarget: bool, ls: seq<Label>)
    requires After(Init(config, tcpTarget), ls).Some?
    ensures InFlight(After(Init(config, tcpTarget), ls).value)
  {
    GoodRun(config, tcpTarget, ls);
  }
}
