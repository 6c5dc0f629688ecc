/** Where a tunnel that is left to itself ends: when nothing but something new could still happen,
    every stream at both ends is closed, every handler has gone, and no reset is owed. */
module Rest {
  import opened Messages
  import opened Options
  import opened Scripts
  import G = GatewayMux
  import GLife = GatewayLife
  import A = AgentMux
  import ALife = AgentLife
  import ARuns = AgentRuns
  import opened Tunnel
  import opened Quiescence

  ghost predicate Settled(s: State) {
    forall l :: Enabled(s, l) ==> IsInput(l)
  }

  // ----- the gateway -----

  predicate StreamAtRest(o: G.Stream) {
    o.once.Done? && o.left && !o.resetOwed
  }

  predicate GatewayAtRest(s: G.State) {
    && s.loop.Exited? && s.closing.Finished?
    && forall r :: 0 <= r < |s.objs| ==> StreamAtRest(s.objs[r])
  }

  /** An act that is no input is not enabled. */
  lemma NoAct(s: State, r: nat, act: G.Act)
    requires Settled(s) && r < |s.g.objs| && !GatewayInput(act)
    requires act.Begin? ==> act.cause.HandlerExit? || act.cause.Cancelled?
    ensures !s.g.objs[r].Can(act)
  {
    assert s.g.objs[r].Can(act) ==> Enabled(s, Gateway(G.On(r, act)));
  }

  lemma NoStep(s: State, gl: G.Label)
    requires Settled(s) && !gl.OpenStream? && !gl.On? && !gl.Lookup?
    ensures !G.Enabled(s.g, gl)
  {
    assert G.Enabled(s.g, gl) ==> Enabled(s, Gateway(gl));
  }

  lemma ClosedForGood(s: State, r: nat)
    requires Settled(s) && r < |s.g.objs|
    ensures s.g.objs[r].once.Done?
  {
    var o := s.g.objs[r];
    if o.once.Fresh? { NoAct(s, r, G.Begin(G.Cancelled)); }
    if o.once.Begun? { NoAct(s, r, G.CloseChannel); }
    if o.once.Shut? { NoAct(s, r, G.Forget); }
  }

  lemma StreamsSettle(s: State, r: nat)
    requires Settled(s) && r < |s.g.objs|
    ensures StreamAtRest(s.g.objs[r])
  {
    ClosedForGood(s, r);
    if !s.g.objs[r].left { NoAct(s, r, G.HandlerReset); }
    if s.g.objs[r].resetOwed { NoAct(s, r, G.EmitReset); }
  }

  lemma ReadLoopSettles(s: State)
    requires Settled(s) && G.Wf(s.g)
    ensures s.g.loop.Exited?
  {
    if s.g.loop.Reading? {
      NoStep(s, G.LoopExit);
    } else if s.g.loop.Resetting? {
      ClosedForGood(s, s.g.loop.ref);
      NoStep(s, G.ResetDone);
    } else if s.g.loop.Delivering? {
      ClosedForGood(s, s.g.loop.ref);
      NoStep(s, G.Drop);
    }
  }

  lemma ClosingSettles(s: State)
    requires Settled(s) && G.Wf(s.g)
    ensures s.g.closing.Finished?
  {
    match s.g.closing
    case Open => NoStep(s, G.ConnSignal);
    case Signalled =>
      var order := GLife.Order(s.g.streams);
      NoStep(s, G.ConnSwap(order));
    case Sweeping(rest) =>
      if rest == [] {
        NoStep(s, G.ConnFinish);
      } else {
        assert rest[0] in rest;
        ClosedForGood(s, rest[0]);
        NoStep(s, G.SweepNext);
      }
    case Finished =>
  }

  lemma GatewaySettles(s: State)
    requires Settled(s) && G.Wf(s.g)
    ensures GatewayAtRest(s.g)
  {
    ReadLoopSettles(s);
    ClosingSettles(s);
    forall r | 0 <= r < |s.g.objs| ensures StreamAtRest(s.g.objs[r]) { StreamsSettle(s, r); }
  }

  // ----- the agent -----

  predicate ObjectAtRest(o: A.Stream) {
    o.handler.Gone? && o.closed && !o.pump.Pumping?
  }

  predicate AgentAtRest(s: A.State) {
    && s.loop.Exited? && s.teardown.Swept? && s.streams == map[]
    && forall r :: 0 <= r < |s.objs| ==> ObjectAtRest(s.objs[r])
  }

  lemma NoAgentAct(s: State, r: nat, act: A.Act)
    requires Settled(s) && r < |s.a.objs| && !AgentInput(act) && !act.First?
    ensures !s.a.objs[r].Can(act)
  {
    assert s.a.objs[r].Can(act) ==> Enabled(s, Agent(A.On(r, act)));
  }

  lemma NoAgentStep(s: State, al: A.Label)
    requires Settled(s) && !al.On? && !al.Accept?
    ensures !A.Enabled(s.a, al)
  {
    assert A.Enabled(s.a, al) ==> Enabled(s, Agent(al));
  }

  lemma AgentLoopSettles(s: State)
    requires Settled(s) && ALife.HandsOk(s.a)
    ensures s.a.loop.Exited?
  {
    match s.a.loop
    case Reading => NoAgentStep(s, A.LoopExit);
    case Delivering(r, _) =>
      if s.a.objs[r].closed { NoAgentStep(s, A.Drop); }
      if |s.a.objs[r].rx| < A.STREAM_QUEUE_FRAMES { NoAgentStep(s, A.Enqueue); }
      NoAgentStep(s, A.Overflow);
    case Shedding(_) => NoAgentStep(s, A.ShedReset);
    case Forgetting(_) => NoAgentStep(s, A.LoopForget);
    case Closing(_) => NoAgentStep(s, A.LoopClose);
    case Exited =>
  }

  lemma TeardownSettles(s: State)
    requires Settled(s) && ALife.HandsOk(s.a)
    ensures s.a.loop.Exited? && s.a.teardown.Swept? && s.a.streams == map[]
  {
    AgentLoopSettles(s);
    match s.a.teardown
    case Up =>
      var order := GLife.Order(s.a.streams);
      NoAgentStep(s, A.SwapAll(order));
    case Sweeping(rest) =>
      if rest == [] {
        NoAgentStep(s, A.SweepDone);
      } else {
        assert rest[0] in rest;
        NoAgentStep(s, A.SweepOne);
      }
    case Swept =>
  }

  lemma NobodyRemoves(s: State, r: nat)
    requires Settled(s) && ALife.HandsOk(s.a) && r < |s.a.objs|
    ensures !s.a.objs[r].handler.Removing?
  {
    if s.a.objs[r].handler.Removing? { NoAgentStep(s, A.HandlerClose(r)); }
  }

  lemma ObjectsClose(s: State, r: nat)
    requires Settled(s) && ALife.HandsOk(s.a) && r < |s.a.objs| && ALife.Kept(s.a, r)
    ensures s.a.objs[r].closed
  {
    TeardownSettles(s);
    if ALife.Held(s.a, r) {
      var h :| 0 <= h < |s.a.objs| && s.a.objs[h].handler == A.Removing(Some(r));
      NobodyRemoves(s, h);
    }
  }

  lemma ObjectsSettle(s: State, r: nat)
    requires Settled(s) && ALife.HandsOk(s.a) && r < |s.a.objs| && ALife.Kept(s.a, r)
    ensures ObjectAtRest(s.a.objs[r])
  {
    var o := s.a.objs[r];
    ObjectsClose(s, r);
    NobodyRemoves(s, r);
    if o.handler.Waiting? { NoAgentAct(s, r, A.SeeClosed); }
    if o.handler.Refusing? { NoAgentAct(s, r, A.Refuse); }
    if o.handler.Running? { NoAgentAct(s, r, A.Return); }
    if o.handler.Leaving? { NoAgentStep(s, A.HandlerForget(r)); }
    if o.pump.Pumping? { NoAgentAct(s, r, A.PumpAbort); }
  }

  lemma AgentSettles(s: State)
    requires Settled(s) && ARuns.Good(s.a)
    ensures AgentAtRest(s.a)
  {
    TeardownSettles(s);
    forall r | 0 <= r < |s.a.objs| ensures ObjectAtRest(s.a.objs[r]) { ObjectsSettle(s, r); }
  }

  // ----- the results -----

  /** When nothing but input could still happen, both ends are at rest. */
  lemma SettledIsAtRest(config: G.Config, tcpTarget: bool, ls: seq<Label>, s: State)
    requires Reaches(config, tcpTarget, ls, s) && Settled(s)
    ensures GatewayAtRest(s.g) && AgentAtRest(s.a)
  {
    GoodRun(config, tcpTarget, ls);
    GatewaySettles(s);
    AgentSettles(s);
  }

  ghost predicate AtRest(s: State) { GatewayAtRest(s.g) && AgentAtRest(s.a) }

  /** At rest, or one step on that is no input. */
  lemma OnwardOrRest(config: G.Config, tcpTarget: bool, ls: seq<Label>, s: State)
    returns (l: Option<Label>, next: State)
    requires Reaches(config, tcpTarget, ls, s) && InFlight(s)
    ensures l.None? ==> AtRest(s)
    ensures l.Some? ==> Reaches(config, tcpTarget, ls + [l.value], next) && !IsInput(l.value)
    ensures l.Some? ==> InFlight(next) && Weight(next) < Weight(s)
  {
    if Settled(s) {
      l, next := None, s;
      SettledIsAtRest(config, tcpTarget, ls, s);
    } else {
      var step :| Enabled(s, step) && !IsInput(step);
      l, next := Some(step), Apply(s, step);
      StepFalls(s, step);
      assert (ls + [step])[..|ls|] == ls;
    }
  }

  /** And every run can be brought there without any input, in no more steps than its weight. */
  lemma {:induction false} EveryRunComesToRest(config: G.Config, tcpTarget: bool, ls: seq<Label>, s: State, n: nat)
    returns (more: seq<Label>, t: State)
    requires Reaches(config, tcpTarget, ls, s) && InFlight(s) && Weight(s) <= n
    ensures Reaches(config, tcpTarget, ls + more, t) && AtRest(t)
    ensures |more| <= n && forall l :: l in more ==> !IsInput(l)
    decreases n
  {
    var l, next := OnwardOrRest(config, tcpTarget, ls, s);
    if l.None? {
      more, t := [], s;
      assert ls + more == ls;
    } else {
      var rest;
      rest, t := EveryRunComesToRest(config, tcpTarget, ls + [l.value], next, n - 1);
      Regrouped(config, tcpTarget, ls, l.value, rest, t);
      more := [l.value] + rest;
    }
  }

  lemma Regrouped(config: G.Config, tcpTarget: bool, ls: seq<Label>, l: Label, rest: seq<Label>, t: State)
    requires Reaches(config, tcpTarget, ls + [l] + rest, t) && forall k :: k in rest ==> !IsInput(k)
    ensures Reaches(config, tcpTarget, ls + ([l] + rest), t)
    ensures !IsInput(l) ==> forall k :: k in [l] + rest ==> !IsInput(k)
  {
    assert ls + ([l] + rest) == ls + [l] + rest;
  }
}
