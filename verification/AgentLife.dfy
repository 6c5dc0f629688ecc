/** What holds of the agent's streams in every run: none is left open by the teardown although
    removal goes by id, frames reach a handler without holes, and a stream id is dispatched at
    most once per request opened under it. */
module AgentLife {
  import opened Messages
  import opened Options
  import opened Scripts
  import opened WsMessages
  import opened AgentMux

  // ----- what a step does to one existing object -----

  predicate Consumes(act: Act) {
    act.First? || act.Take? || act.TakeFailing?
  }

  /** Acts by which the handler, or a goroutine beside it, says something. */
  predicate Utters(act: Act) {
    act.Emit? || act.Interim? || act.RelayChunk? || act.RelayMessage?
  }

  /** Nothing said or read from the upstream. */
  ghost predicate SameSpeech(o: Stream, p: Stream) {
    p.sent == o.sent && p.read == o.read && p.mode == o.mode && p.said == o.said && p.hushed == o.hushed
  }

  ghost predicate SameBut(o: Stream, p: Stream) {
    && p.id == o.id && p.base == o.base && p.offered == o.offered && p.taken == o.taken && p.rx == o.rx
    && SameSpeech(o, p) && p.closed == o.closed && p.selfClosed == o.selfClosed
    && p.acceptedOpen == o.acceptedOpen
  }

  lemma JudgedFacts(o: Stream, m: Message, tcpTarget: bool)
    ensures SameBut(o, o.Judged(m, tcpTarget))
  {
    var p := o.Judged(m, tcpTarget);
    assert p == o.(kind := p.kind, handler := p.handler, pump := p.pump);
  }

  lemma PumpedFacts(o: Stream, m: Message)
    ensures SameBut(o, o.Pumped(m)) && o.Pumped(m).kind == o.kind && o.Pumped(m).handler == o.handler
  {
  }

  lemma ConsumeFacts(o: Stream, act: Act)
    requires o.Can(act) && Consumes(act)
    ensures var p := o.Do(act);
            && p.id == o.id && p.base == o.base && p.offered == o.offered
            && p.taken == o.taken + [o.rx[0]] && p.rx == o.rx[1..]
            && SameSpeech(o, p) && p.closed == o.closed && p.selfClosed == o.selfClosed
            && p.acceptedOpen == o.acceptedOpen
            && (act.First? || (p.kind == o.kind && p.handler == o.handler))
  {
    var q := o.Popped();
    match act
    case First(tcpTarget) => JudgedFacts(q, o.rx[0], tcpTarget);
    case Take => PumpedFacts(q, o.rx[0]);
    case _ =>
  }

  /** An act that leaves the queue, the kind and the request body alone. */
  ghost predicate SameIntake(o: Stream, p: Stream) {
    && p.id == o.id && p.base == o.base && p.offered == o.offered
    && p.taken == o.taken && p.rx == o.rx && p.kind == o.kind && p.body == o.body
  }

  ghost predicate SameEnd(o: Stream, p: Stream) {
    p.closed == o.closed && p.selfClosed == o.selfClosed && p.acceptedOpen == o.acceptedOpen
  }

  ghost predicate Uttered(o: Stream, p: Stream) {
    && SameIntake(o, p) && SameEnd(o, p) && p.pump == o.pump && (o.cancelled ==> p.cancelled)
    && (p.handler == o.handler || (p.handler.Leaving? && o.handler.Running?))
  }

  lemma EmitFacts(o: Stream, m: Message)
    requires o.Can(Emit(m))
    ensures Uttered(o, o.Do(Emit(m)))
  {
  }

  lemma ChunkFacts(o: Stream, data: Bytes, ok: bool)
    requires o.Can(RelayChunk(data, ok))
    ensures Uttered(o, o.Do(RelayChunk(data, ok)))
  {
  }

  lemma MessageFacts(o: Stream, m: WsMessage, ok: bool)
    requires o.Can(RelayMessage(m, ok))
    ensures Uttered(o, o.Do(RelayMessage(m, ok)))
  {
  }

  lemma UtterFacts(o: Stream, act: Act)
    requires o.Can(act) && Utters(act)
    ensures Uttered(o, o.Do(act))
  {
    match act
    case Emit(m) => EmitFacts(o, m);
    case RelayChunk(data, ok) => ChunkFacts(o, data, ok);
    case RelayMessage(m, ok) => MessageFacts(o, m, ok);
    case Interim =>
  }

  lemma SilentFacts(o: Stream, act: Act)
    requires o.Can(act) && !Utters(act) && !Consumes(act)
    ensures var p := o.Do(act);
            && SameIntake(o, p) && SameSpeech(o, p)
            && (if act.SelfClose? then p.closed && p.selfClosed else SameEnd(o, p))
            && (p.pump == o.pump || (act.PumpAbort? && p.pump == PipeClosed(false)))
            && (o.cancelled || act.PumpAbort? ==> p.cancelled)
            && (p.handler == o.handler || (p.handler.Leaving? && !o.handler.Removing? && !o.handler.Gone?))
  {
    var p := o.Do(act);
    if act.SelfClose? {
      assert p == o.(closed := true, selfClosed := true, acceptedOpen := |o.taken| + |o.rx|);
    } else if act.SelfReset? {
      assert p == o.(resetSpent := true);
    } else {
      assert p == o.(handler := p.handler, cancelled := p.cancelled, pump := p.pump);
    }
  }

  lemma OtherActFacts(o: Stream, act: Act)
    requires o.Can(act) && !Consumes(act)
    ensures var p := o.Do(act);
            && SameIntake(o, p)
            && (p.pump == o.pump || (act.PumpAbort? && p.pump == PipeClosed(false)))
            && (o.cancelled || act.PumpAbort? ==> p.cancelled)
            && (if act.SelfClose? then p.closed && p.selfClosed else SameEnd(o, p))
            && (p.handler == o.handler || (p.handler.Leaving? && !o.handler.Removing? && !o.handler.Gone?))
  {
    if Utters(act) { UtterFacts(o, act); } else { SilentFacts(o, act); }
  }

  lemma ActFacts(o: Stream, act: Act)
    requires o.Can(act)
    ensures o.Do(act).id == o.id && o.Do(act).base == o.base && o.Do(act).offered == o.offered
    ensures o.Do(act).Accepted() == o.Accepted() && o.taken <= o.Do(act).taken
    ensures o.handler.Removing? || o.handler.Gone? <==> o.Do(act).handler.Removing? || o.Do(act).handler.Gone?
    ensures o.handler.Removing? || o.handler.Gone? ==> o.Do(act).handler == o.handler
    ensures o.closed ==> o.Do(act).closed
    ensures o.selfClosed ==> o.Do(act).selfClosed
    ensures o.Do(act).closed && !o.closed ==> o.Do(act).selfClosed
    ensures !act.SelfClose? ==> o.Do(act).selfClosed == o.selfClosed && o.Do(act).acceptedOpen == o.acceptedOpen
    ensures o.Dispatched() ==> o.Do(act).Dispatched()
  {
    if Consumes(act) {
      ConsumeFacts(o, act);
      assert o.Do(act).Accepted() == o.Accepted();
    } else {
      OtherActFacts(o, act);
    }
  }

  ghost predicate Follows(s: State, t: State, r: nat) {
    && r < |s.objs| <= |t.objs|
    && t.objs[r].id == s.objs[r].id && t.objs[r].base == s.objs[r].base
    && (Mapped(t, r) ==> Mapped(s, r))
    && (s.objs[r].closed ==> t.objs[r].closed)
    && (s.objs[r].Dispatched() ==> t.objs[r].Dispatched())
  }

  lemma StepFollows(s: State, l: Label, r: nat)
    requires Enabled(s, l) && r < |s.objs|
    ensures Follows(s, Apply(s, l), r)
  {
    match l
    case On(q, act) => ActFacts(s.objs[q], act);
    case _ =>
  }

  // ----- well-formedness -----

  ghost predicate Detached(s: State, t: Option<nat>) {
    t.Some? ==> t.value < |s.objs| && !Mapped(s, t.value)
  }

  ghost predicate MapOk(s: State) {
    forall id :: id in s.streams ==> s.streams[id] < |s.objs| && s.objs[s.streams[id]].id == id
  }

  /** Only the latest object made for an id can be in the map. */
  ghost predicate LatestOnly(s: State) {
    forall q, r :: 0 <= r < q < |s.objs| && s.objs[q].id == s.objs[r].id ==> !Mapped(s, r)
  }

  /** Whoever holds an object in order to close it has taken it out of the map. */
  ghost predicate HandsOk(s: State) {
    && (s.loop.Delivering? || s.loop.Shedding? || s.loop.Forgetting? ==> s.loop.ref < |s.objs|)
    && (s.loop.Closing? ==> Detached(s, s.loop.target))
    && (forall h :: 0 <= h < |s.objs| && s.objs[h].handler.Removing? ==> Detached(s, s.objs[h].handler.target))
    && (s.teardown.Sweeping? ==> forall r :: r in s.teardown.rest ==> r < |s.objs|)
    && (!s.teardown.Up? ==> s.streams == map[] && s.loop.Exited?)
  }

  ghost predicate Wf(s: State) {
    MapOk(s) && LatestOnly(s) && HandsOk(s)
  }

  lemma MapOkStep(s: State, l: Label)
    requires MapOk(s) && Enabled(s, l)
    ensures MapOk(Apply(s, l))
  {
    var t := Apply(s, l);
    forall id | id in t.streams ensures t.streams[id] < |t.objs| && t.objs[t.streams[id]].id == id {
      if t.streams[id] < |s.objs| { StepFollows(s, l, t.streams[id]); }
    }
  }

  lemma LatestOnlyStep(s: State, l: Label)
    requires MapOk(s) && LatestOnly(s) && Enabled(s, l)
    ensures LatestOnly(Apply(s, l))
  {
    var t := Apply(s, l);
    forall q, r | 0 <= r < q < |t.objs| && t.objs[q].id == t.objs[r].id ensures !Mapped(t, r) {
      if q < |s.objs| { StepFollows(s, l, q); }
      if r < |s.objs| { StepFollows(s, l, r); }
    }
  }

  lemma DetachedStep(s: State, l: Label, target: Option<nat>)
    requires Enabled(s, l) && Detached(s, target)
    ensures Detached(Apply(s, l), target)
  {
    if target.Some? { StepFollows(s, l, target.value); }
  }

  lemma RemovingStep(s: State, l: Label, h: nat)
    requires HandsOk(s) && MapOk(s) && Enabled(s, l) && h < |Apply(s, l).objs|
    requires Apply(s, l).objs[h].handler.Removing?
    ensures Detached(Apply(s, l), Apply(s, l).objs[h].handler.target)
  {
    if l != HandlerForget(h) {
      RemovingBefore(s, l, h);
      DetachedStep(s, l, s.objs[h].handler.target);
    }
  }

  lemma RemovingBefore(s: State, l: Label, h: nat)
    requires Enabled(s, l) && h < |Apply(s, l).objs| && l != HandlerForget(h)
    requires Apply(s, l).objs[h].handler.Removing?
    ensures h < |s.objs| && s.objs[h].handler == Apply(s, l).objs[h].handler
  {
    if l.On? { ActFacts(s.objs[l.r], l.act); }
  }

  lemma HandsOkStep(s: State, l: Label)
    requires MapOk(s) && HandsOk(s) && Enabled(s, l)
    ensures HandsOk(Apply(s, l))
  {
    var t := Apply(s, l);
    forall h | 0 <= h < |t.objs| && t.objs[h].handler.Removing? ensures Detached(t, t.objs[h].handler.target) {
      RemovingStep(s, l, h);
    }
    if s.loop.Closing? { DetachedStep(s, l, s.loop.target); }
    RestOkStep(s, l);
  }

  lemma RestOkStep(s: State, l: Label)
    requires MapOk(s) && HandsOk(s) && Enabled(s, l)
    ensures var t := Apply(s, l); t.teardown.Sweeping? ==> forall r :: r in t.teardown.rest ==> r < |t.objs|
  {
    match l
    case SwapAll(order) =>
      forall r | r in order ensures r < |s.objs| {
        var id :| id in s.streams && s.streams[id] == r;
      }
    case SweepOne =>
      assert forall r :: r in s.teardown.rest[1..] ==> r in s.teardown.rest;
    case _ =>
  }

  lemma WfStep(s: State, l: Label)
    requires Wf(s) && Enabled(s, l)
    ensures Wf(Apply(s, l))
  {
    MapOkStep(s, l);
    LatestOnlyStep(s, l);
    HandsOkStep(s, l);
  }

  // ----- no stream is lost to cleanup -----

  ghost predicate Held(s: State, r: nat) {
    exists h :: 0 <= h < |s.objs| && s.objs[h].handler == Removing(Some(r))
  }

  /** Closed, still in the map, or in the hands of the goroutine that will close it. */
  ghost predicate Kept(s: State, r: nat)
    requires r < |s.objs|
  {
    || s.objs[r].closed
    || Mapped(s, r)
    || s.loop == Closing(Some(r))
    || Held(s, r)
    || (s.teardown.Sweeping? && r in s.teardown.rest)
  }

  lemma HeldStep(s: State, l: Label, r: nat)
    requires Enabled(s, l) && Held(s, r) && r < |s.objs|
    ensures Held(Apply(s, l), r) || Apply(s, l).objs[r].closed
  {
    var t := Apply(s, l);
    var h :| 0 <= h < |s.objs| && s.objs[h].handler == Removing(Some(r));
    match l
    case On(q, act) =>
      ActFacts(s.objs[q], act);
      assert t.objs[h].handler == Removing(Some(r));
    case HandlerClose(q) =>
      if q != h { assert t.objs[h].handler == Removing(Some(r)); }
    case _ => assert t.objs[h].handler == Removing(Some(r));
  }

  lemma KeptStep(s: State, l: Label, r: nat)
    requires Wf(s) && Enabled(s, l) && r < |s.objs| && Kept(s, r)
    ensures Kept(Apply(s, l), r)
  {
    var t := Apply(s, l);
    StepFollows(s, l, r);
    if Held(s, r) {
      HeldStep(s, l, r);
    } else if Mapped(s, r) && !Mapped(t, r) {
      match l
      case HandlerForget(q) => assert t.objs[q].handler == Removing(Some(r));
      case _ =>
    }
  }

  // ----- frames reach the handler without holes -----

  /** Nothing is missing from the middle of what an object accepted, or, once a relay has closed it
      itself, from the middle of what it had accepted by then. */
  ghost predicate HoleFree(s: State, r: nat)
    requires r < |s.objs|
  {
    var o := s.objs[r];
    if o.selfClosed then WholeWhenClosed(o)
    else
      && o.Accepted() <= o.offered
      && (s.loop.Delivering? && s.loop.ref == r ==> o.Accepted() + [s.loop.msg] == o.offered)
      && (Mapped(s, r) && (s.loop.Delivering? || s.loop.Shedding? || s.loop.Forgetting? ==> s.loop.ref != r) ==>
            o.Accepted() == o.offered)
      && (Mapped(s, r) ==> !o.closed)
  }

  ghost predicate WholeWhenClosed(o: Stream) {
    0 < o.acceptedOpen <= |o.Accepted()| && o.Accepted()[..o.acceptedOpen] <= o.offered
  }

  lemma HeardInOrder(s: State, r: nat)
    requires r < |s.objs| && HoleFree(s, r)
    ensures s.objs[r].Heard() <= s.objs[r].offered
    ensures s.objs[r].taken != [] ==> s.objs[r].Heard() != [] && s.objs[r].Heard()[0] == s.objs[r].taken[0]
  {
    var o := s.objs[r];
    assert o.taken <= o.Accepted();
    if o.selfClosed {
      assert o.Heard() <= o.Accepted()[..o.acceptedOpen];
    }
  }

  lemma HoleFreeAct(s: State, q: nat, act: Act, r: nat)
    requires Enabled(s, On(q, act)) && r < |s.objs| && HoleFree(s, r) && Judged(s.objs[r])
    ensures HoleFree(Apply(s, On(q, act)), r)
  {
    ActFacts(s.objs[q], act);
    if q == r && act.SelfClose? {
      var o := s.objs[r];
      assert o.Accepted()[..|o.Accepted()|] == o.Accepted();
      assert WholeWhenClosed(o.Do(act));
    }
  }

  lemma HoleFreeEnqueue(s: State, r: nat)
    requires Wf(s) && Enabled(s, Enqueue) && r < |s.objs| && HoleFree(s, r)
    ensures HoleFree(Apply(s, Enqueue), r)
  {
    var o := s.objs[r];
    if s.loop.ref == r {
      var p := o.(rx := o.rx + [s.loop.msg]);
      assert p.Accepted() == o.Accepted() + [s.loop.msg];
      if o.selfClosed { assert p.Accepted()[..o.acceptedOpen] == o.Accepted()[..o.acceptedOpen]; }
    }
  }

  lemma HoleFreeStep(s: State, l: Label, r: nat)
    requires Wf(s) && Enabled(s, l) && r < |s.objs| && HoleFree(s, r) && Judged(s.objs[r])
    ensures HoleFree(Apply(s, l), r)
  {
    if l.On? {
      HoleFreeAct(s, l.r, l.act, r);
    } else if l.Enqueue? {
      HoleFreeEnqueue(s, r);
    } else if l.Accept? {
      HoleFreeAccept(s, l.p, r);
    } else {
      HoleFreeOther(s, l, r);
    }
  }

  lemma HoleFreeAccept(s: State, p: Packet, r: nat)
    requires Wf(s) && Enabled(s, Accept(p)) && r < |s.objs| && HoleFree(s, r)
    ensures HoleFree(Apply(s, Accept(p)), r)
  {
  }

  lemma HoleFreeOther(s: State, l: Label, r: nat)
    requires Wf(s) && Enabled(s, l) && r < |s.objs| && HoleFree(s, r) && !l.On? && !l.Enqueue? && !l.Accept?
    ensures HoleFree(Apply(s, l), r)
  {
    StepFollows(s, l, r);
    FramesKept(s, l, r);
    var t := Apply(s, l);
    assert t.loop.Delivering? ==> t.loop == s.loop;
    if Mapped(t, r) && t.objs[r].closed { ClosedWasUnmapped(s, l, r); }
  }

  lemma FramesKept(s: State, l: Label, r: nat)
    requires Enabled(s, l) && r < |s.objs| && !l.On? && !l.Enqueue? && !l.Accept?
    ensures var o, p := s.objs[r], Apply(s, l).objs[r];
            && p.taken == o.taken && p.rx == o.rx && p.offered == o.offered
            && p.selfClosed == o.selfClosed && p.acceptedOpen == o.acceptedOpen
  {
    if l.HandlerClose? {
      CloseKeepsWork(s.objs, s.objs[l.r].handler.target, r);
    } else if l.LoopClose? {
      CloseKeepsWork(s.objs, s.loop.target, r);
    } else if l.SweepOne? {
      CloseKeepsWork(s.objs, Some(s.teardown.rest[0]), r);
    } else if !l.HandlerForget? {
      assert Apply(s, l).objs == s.objs;
    }
  }

  /** Whoever closes an object has taken it out of the map. */
  lemma ClosedWasUnmapped(s: State, l: Label, r: nat)
    requires Wf(s) && Enabled(s, l) && r < |s.objs| && !l.On? && !l.Accept?
    requires Mapped(Apply(s, l), r) && Apply(s, l).objs[r].closed
    ensures s.objs[r].closed
  {
  }

  // ----- what one object's handler does -----

  /** What the first frame decides. */
  ghost predicate Judged(o: Stream) {
    && (o.handler.Waiting? ==> o.kind.Unknown?)
    && (o.kind.Unknown? <==> o.taken == [])
    && (o.Dispatched() ==> o.taken[0].ReqStart?)
    && (!o.Dispatched() ==> !o.handler.Running? && !o.selfClosed)
    && (o.kind.Http? ==> !o.selfClosed)
  }

  /** What a handler has sent is legal and, for HTTP, is what it read from its upstream. */
  ghost predicate Upward(o: Stream) {
    && (!o.Dispatched() ==> o.sent == [])
    && (!o.kind.Http? ==> ResponseBytes(o.sent) == o.read == [])
    && !Responding(o.sent).Illegal? && (o.kind.Http? ==> !Responding(o.sent).Relay?)
    && ResponseBytes(o.sent) <= o.read
    && (o.handler.Running? || Responding(o.sent).Ended? ==> ResponseBytes(o.sent) == o.read)
  }

  /** The pipe to the upstream holds the body bytes taken so far; it closes cleanly only on ReqEnd,
      and otherwise only once the request has been cancelled. */
  ghost predicate Downward(o: Stream) {
    && (!o.Dispatched() ==> o.body == [])
    && (!o.pump.NoPump? ==> o.kind.Http?)
    && (o.pump.Pumping? ==> o.body == RequestBytes(o.taken))
    && (o.pump == PipeClosed(false) ==> o.cancelled)
    && (o.pump == PipeClosed(true) ==>
          o.taken != [] && o.taken[|o.taken| - 1].ReqEnd? && o.body == RequestBytes(o.taken))
  }

  lemma JudgedFirst(o: Stream, tcpTarget: bool)
    requires Judged(o) && o.Can(First(tcpTarget))
    ensures Judged(o.Do(First(tcpTarget)))
  {
    var q := o.Popped();
    JudgedFacts(q, o.rx[0], tcpTarget);
    JudgedPump(q, o.rx[0], tcpTarget);
    assert q.taken == [o.rx[0]];
  }

  lemma JudgedOther(o: Stream, act: Act)
    requires Judged(o) && o.Can(act) && !Consumes(act)
    ensures Judged(o.Do(act))
  {
    OtherActFacts(o, act);
  }

  lemma JudgedStep(o: Stream, act: Act)
    requires Judged(o) && o.Can(act) && (o.pump.Pumping? ==> o.kind.Http?)
    ensures Judged(o.Do(act))
  {
    if act.First? {
      JudgedFirst(o, act.tcpTarget);
    } else if Consumes(act) {
      ConsumeFacts(o, act);
    } else {
      JudgedOther(o, act);
    }
  }

  lemma UpwardEmit(o: Stream, m: Message)
    requires Judged(o) && Upward(o) && o.Can(Emit(m))
    ensures Upward(o.Do(Emit(m)))
  {
    RespondingAppend(o.sent, m);
    ResponseBytesAppend(o.sent, m);
  }

  lemma UpwardRelay(o: Stream, data: Bytes, sent: bool)
    requires Judged(o) && Upward(o) && o.Can(RelayChunk(data, sent))
    ensures Upward(o.Do(RelayChunk(data, sent)))
  {
    RespondingAppend(o.sent, ResData(data));
    ResponseBytesAppend(o.sent, ResData(data));
  }

  lemma UpwardMessage(o: Stream, m: WsMessage, ok: bool)
    requires Judged(o) && Upward(o) && o.Can(RelayMessage(m, ok))
    ensures Upward(o.Do(RelayMessage(m, ok)))
  {
    if ok && Relays(o.mode, m) {
      UpwardFrame(o, WsA2C(Wrapped(o.mode, m)));
      UpwardSame(o.(sent := o.sent + [WsA2C(Wrapped(o.mode, m))]), o.Do(RelayMessage(m, ok)));
    } else {
      UpwardSame(o, o.Do(RelayMessage(m, ok)));
    }
  }

  lemma UpwardFrame(o: Stream, f: Message)
    requires Upward(o) && o.kind.Ws? && Responding(o.sent).Relay? && f.WsA2C?
    ensures Upward(o.(sent := o.sent + [f]))
  {
    RespondingAppend(o.sent, f);
    ResponseBytesAppend(o.sent, f);
  }

  lemma UpwardStep(o: Stream, act: Act)
    requires Judged(o) && Upward(o) && o.Can(act)
    ensures Upward(o.Do(act))
  {
    if act.Emit? {
      UpwardEmit(o, act.m);
    } else if act.RelayChunk? {
      UpwardRelay(o, act.data, act.sent);
    } else if act.RelayMessage? {
      UpwardMessage(o, act.said, act.ok);
    } else if Consumes(act) {
      ConsumeFacts(o, act);
    } else if !Utters(act) {
      SilentFacts(o, act);
      UpwardSame(o, o.Do(act));
    }
  }

  lemma UpwardSame(o: Stream, p: Stream)
    requires Upward(o) && p.sent == o.sent && p.read == o.read && p.kind == o.kind
    requires p.handler.Running? ==> o.handler.Running?
    ensures Upward(p)
  {
  }

  /** A WebSocket handler reports one relay mode, and then relays what its target says. */
  ghost predicate Echoed(o: Stream) {
    && Echoes(o.mode, o.sent, o.said, o.hushed)
    && (Responding(o.sent).Idle? ==> o.sent == [] && o.said == [] && !o.hushed)
    && (forall mode :: WsOpenOK(mode) in o.sent ==> mode == o.mode)
  }

  lemma EchoedEmit(o: Stream, m: Message)
    requires Echoed(o) && o.Can(Emit(m)) && !Responding(o.sent).Illegal?
    ensures Echoed(o.Do(Emit(m)))
  {
    RespondingAppend(o.sent, m);
    if m.WsOpenOK? {
      assert [] + [m] == [m];
      EchoesAside(m.mode, [], [], false, m);
    } else {
      EchoesAside(o.mode, o.sent, o.said, o.hushed, m);
    }
  }

  lemma EchoedChunk(o: Stream, data: Bytes, ok: bool)
    requires Echoed(o) && o.Can(RelayChunk(data, ok))
    ensures Echoed(o.Do(RelayChunk(data, ok)))
  {
    RespondingAppend(o.sent, ResData(data));
    EchoesAside(o.mode, o.sent, o.said, o.hushed, ResData(data));
  }

  lemma EchoedFrame(o: Stream, m: WsMessage)
    requires Echoed(o) && o.Can(RelayMessage(m, true)) && Relays(o.mode, m)
    ensures Echoed(o.Do(RelayMessage(m, true)))
  {
    var f := WsA2C(Wrapped(o.mode, m));
    RespondingAppend(o.sent, f);
    EchoesFrame(o.mode, o.sent, o.said, m, f);
  }

  lemma EchoedMessage(o: Stream, m: WsMessage, ok: bool)
    requires Echoed(o) && o.Can(RelayMessage(m, ok))
    ensures Echoed(o.Do(RelayMessage(m, ok)))
  {
    if ok && Relays(o.mode, m) {
      EchoedFrame(o, m);
    } else {
      EchoesUnsent(o.mode, o.sent, o.said, m);
    }
  }

  lemma EchoedStep(o: Stream, act: Act)
    requires Echoed(o) && o.Can(act) && !Responding(o.sent).Illegal?
    ensures Echoed(o.Do(act))
  {
    if act.Emit? {
      EchoedEmit(o, act.m);
    } else if act.RelayChunk? {
      EchoedChunk(o, act.data, act.sent);
    } else if act.RelayMessage? {
      EchoedMessage(o, act.said, act.ok);
    } else if Consumes(act) {
      ConsumeFacts(o, act);
    } else if !Utters(act) {
      SilentFacts(o, act);
    }
  }

  lemma DownwardFirst(o: Stream, tcpTarget: bool)
    requires Judged(o) && Downward(o) && o.Can(First(tcpTarget))
    ensures Downward(o.Do(First(tcpTarget)))
  {
    JudgedPump(o.Popped(), o.rx[0], tcpTarget);
    FirstCarriesNothing(o.rx[0]);
    assert o.Popped().taken == [o.rx[0]];
  }

  lemma FirstCarriesNothing(m: Message)
    ensures m.ReqStart? ==> RequestBytes([m]) == []
  {
    RequestBytesAppend([], m);
    assert [] + [m] == [m];
  }

  lemma JudgedPump(o: Stream, m: Message, tcpTarget: bool)
    ensures var p := o.Judged(m, tcpTarget);
            && p.taken == o.taken && p.body == o.body && p.cancelled == o.cancelled
            && (p.pump == o.pump || (p.pump.Pumping? && p.kind.Http? && m.ReqStart?))
            && (p.Dispatched() <==> p.handler.Running?) && (p.Dispatched() ==> m.ReqStart?)
            && !p.kind.Unknown? && !p.handler.Waiting?
  {
    var p := o.Judged(m, tcpTarget);
    assert p == o.(kind := p.kind, handler := p.handler, pump := p.pump);
  }

  lemma DownwardTake(o: Stream)
    requires Judged(o) && Downward(o) && o.Can(Take)
    ensures Downward(o.Do(Take))
  {
    if o.pump.Pumping? {
      RequestBytesAppend(o.taken, o.rx[0]);
      DownwardPumped(o.Popped(), o.rx[0]);
    } else {
      assert o.pump.NoPump? && o.Do(Take) == o.Popped();
    }
  }

  /** The pump's reading of a frame already counted as taken. */
  lemma DownwardPumped(q: Stream, m: Message)
    requires q.pump.Pumping? && q.kind.Http? && q.taken != [] && q.taken[|q.taken| - 1] == m
    requires RequestBytes(q.taken) == q.body + (if m.ReqData? then m.data else [])
    ensures Downward(q.Pumped(m))
  {
    PumpedBody(q, m);
    PumpedFacts(q, m);
    assert q.Pumped(m).body == RequestBytes(q.taken);
  }

  lemma DownwardStep(o: Stream, act: Act)
    requires Judged(o) && Downward(o) && o.Can(act)
    ensures Downward(o.Do(act))
  {
    match act
    case First(tcpTarget) => DownwardFirst(o, tcpTarget);
    case Take => DownwardTake(o);
    case TakeFailing(n) => ConsumeFacts(o, act);
    case _ => OtherActFacts(o, act);
  }

  /** However the body ended, what went into the pipe is a beginning of the bytes taken. */
  ghost predicate Poured(o: Stream) {
    o.body <= RequestBytes(o.taken)
  }

  lemma PouredBy(o: Stream, act: Act)
    requires o.Can(act) && Consumes(act)
    ensures var more := if o.rx[0].ReqData? then o.rx[0].data else [];
            o.Do(act).body <= o.body + (if o.pump.Pumping? then more else [])
  {
    if act.First? {
      JudgedPump(o.Popped(), o.rx[0], act.tcpTarget);
    } else if act.Take? {
      PumpedBody(o.Popped(), o.rx[0]);
    }
  }

  lemma PumpedBody(o: Stream, m: Message)
    ensures o.Pumped(m).body == o.body + (if m.ReqData? then m.data else [])
  {
  }

  lemma PouredStep(o: Stream, act: Act)
    requires Judged(o) && Downward(o) && Poured(o) && o.Can(act)
    ensures Poured(o.Do(act))
  {
    if Consumes(act) { PouredConsume(o, act); } else { OtherActFacts(o, act); }
  }

  lemma PouredConsume(o: Stream, act: Act)
    requires Downward(o) && Poured(o) && o.Can(act) && Consumes(act)
    ensures Poured(o.Do(act))
  {
    ConsumeFacts(o, act);
    PouredBy(o, act);
    RequestBytesAppend(o.taken, o.rx[0]);
    PrefixGrows(o.Do(act).body, o.body, RequestBytes(o.taken), if o.rx[0].ReqData? then o.rx[0].data else [],
                o.pump.Pumping?);
  }

  lemma PrefixGrows(poured: Bytes, before: Bytes, bytes: Bytes, more: Bytes, pumping: bool)
    requires before <= bytes && (pumping ==> before == bytes)
    requires poured <= before + (if pumping then more else [])
    ensures poured <= bytes + more
  {
  }

  ghost predicate Local(o: Stream) {
    Judged(o) && Upward(o) && Downward(o) && Poured(o) && Echoed(o)
  }

  lemma LocalStep(o: Stream, act: Act)
    requires Local(o) && o.Can(act)
    ensures Local(o.Do(act))
  {
    JudgedStep(o, act);
    UpwardStep(o, act);
    PouredStep(o, act);
    EchoedStep(o, act);
    DownwardStep(o, act);
  }

  // ----- frames of one id go to its objects in turn -----

  ghost predicate SegmentAt(s: State, r: nat)
    requires r < |s.objs|
  {
    var o, all := s.objs[r], For(s.inbox, s.objs[r].id);
    && o.offered != []
    && Stretch(all, o.base, o.offered)
    && (Mapped(s, r) ==> o.base + |o.offered| == |all|)
    && (forall q :: r < q < |s.objs| && s.objs[q].id == o.id ==> o.base + |o.offered| <= s.objs[q].base)
    && (o.taken != [] ==> o.taken[0] == o.offered[0])
  }

  ghost predicate ObjectOk(s: State, r: nat)
    requires r < |s.objs|
  {
    SegmentAt(s, r) && HoleFree(s, r) && Local(s.objs[r])
  }

  lemma AcceptView(s: State, p: Packet, r: nat)
    requires Wf(s) && Enabled(s, Accept(p)) && r < |s.objs|
    ensures var t, o := Apply(s, Accept(p)), s.objs[r];
            && t.inbox == s.inbox + [p] && r < |t.objs| && Mapped(t, r) == Mapped(s, r)
            && t.objs[r] == if Mapped(s, r) && o.id == p.stream then o.(offered := o.offered + [p.msg]) else o
  {
  }

  lemma SegmentAccept(s: State, p: Packet, r: nat)
    requires Wf(s) && Enabled(s, Accept(p)) && r < |s.objs| && SegmentAt(s, r)
    ensures SegmentAt(Apply(s, Accept(p)), r)
  {
    var o, t := s.objs[r], Apply(s, Accept(p));
    var all := For(s.inbox, o.id);
    AcceptView(s, p, r);
    ForAppend(s.inbox, p, o.id);
    StretchKept(all, For(s.inbox + [p], o.id), o.base, o.offered);
    if Mapped(s, r) && o.id == p.stream {
      StretchGrows(all, o.base, o.offered, p.msg);
    }
    forall q | r < q < |t.objs| && t.objs[q].id == o.id
      ensures o.base + |t.objs[r].offered| <= t.objs[q].base
    {
      if q < |s.objs| { AcceptView(s, p, q); }
    }
  }

  lemma SegmentNew(s: State, p: Packet)
    requires Wf(s) && Enabled(s, Accept(p)) && p.stream !in s.streams
    ensures SegmentAt(Apply(s, Accept(p)), |s.objs|)
  {
    ForAppend(s.inbox, p, p.stream);
  }

  ghost predicate SameWork(o: Stream, p: Stream) {
    && p.id == o.id && p.base == o.base && p.offered == o.offered
    && p.kind == o.kind && p.taken == o.taken && SameSpeech(o, p)
    && p.pump == o.pump && p.body == o.body && p.selfClosed == o.selfClosed && p.cancelled == o.cancelled
    && (p.handler == o.handler || p.handler.Removing? || p.handler.Gone?)
  }

  /** Every other step leaves the frames and the work of every object alone. */
  lemma QuietStep(s: State, l: Label, r: nat)
    requires Enabled(s, l) && !l.Accept? && !l.On? && r < |s.objs|
    ensures |Apply(s, l).objs| == |s.objs| && Apply(s, l).inbox == s.inbox
    ensures SameWork(s.objs[r], Apply(s, l).objs[r])
  {
    var objs, o := s.objs, s.objs[r];
    if l.HandlerClose? {
      CloseKeepsWork(objs, objs[l.r].handler.target, r);
    } else if l.LoopClose? {
      CloseKeepsWork(objs, s.loop.target, r);
    } else if l.SweepOne? {
      CloseKeepsWork(objs, Some(s.teardown.rest[0]), r);
    } else if l.Enqueue? || l.HandlerForget? {
      assert SameWork(o, Apply(s, l).objs[r]);
    }
  }

  lemma CloseKeepsWork(objs: seq<Stream>, t: Option<nat>, r: nat)
    requires (t.Some? ==> t.value < |objs|) && r < |objs|
    ensures |Closed(objs, t)| == |objs| && SameWork(objs[r], Closed(objs, t)[r])
    ensures Closed(objs, t)[r].handler == objs[r].handler && Closed(objs, t)[r].rx == objs[r].rx
    ensures Closed(objs, t)[r].acceptedOpen == objs[r].acceptedOpen
  {
  }

  lemma SegmentOn(s: State, q: nat, act: Act, r: nat)
    requires Enabled(s, On(q, act)) && r < |s.objs|
    requires SegmentAt(s, r) && HoleFree(s, r) && Judged(s.objs[r])
    ensures SegmentAt(Apply(s, On(q, act)), r)
  {
    var t := Apply(s, On(q, act));
    StepFollows(s, On(q, act), r);
    ActFacts(s.objs[q], act);
    if q == r { FirstTaken(s.objs[r], act); }
    assert t.objs[r].offered == s.objs[r].offered;
  }

  /** The first frame a handler takes is the first one offered to its object. */
  lemma FirstTaken(o: Stream, act: Act)
    requires o.Can(act) && Judged(o) && (!o.selfClosed ==> o.Accepted() <= o.offered)
    requires o.taken != [] ==> o.offered != [] && o.taken[0] == o.offered[0]
    ensures o.Do(act).taken != [] ==> o.offered != [] && o.Do(act).taken[0] == o.offered[0]
  {
    ActFacts(o, act);
    assert o.taken == [] ==> o.Do(act).Accepted() == o.rx;
  }

  lemma SegmentQuiet(s: State, l: Label, r: nat)
    requires Enabled(s, l) && !l.Accept? && !l.On? && r < |s.objs| && SegmentAt(s, r)
    ensures SegmentAt(Apply(s, l), r)
  {
    var t := Apply(s, l);
    StepFollows(s, l, r);
    QuietStep(s, l, r);
    forall q | r < q < |t.objs| && t.objs[q].id == t.objs[r].id
      ensures t.objs[r].base + |t.objs[r].offered| <= t.objs[q].base
    {
      QuietStep(s, l, q);
    }
  }

  lemma LocalOfSameWork(o: Stream, p: Stream)
    requires Local(o) && SameWork(o, p)
    ensures Local(p)
  {
  }

  lemma LocalOfOffer(o: Stream, m: Message)
    requires Local(o)
    ensures Local(o.(offered := o.offered + [m]))
  {
  }

  lemma LocalHolds(s: State, l: Label, r: nat)
    requires Wf(s) && Enabled(s, l) && r < |s.objs| && Local(s.objs[r])
    ensures r < |Apply(s, l).objs| && Local(Apply(s, l).objs[r])
  {
    StepFollows(s, l, r);
    if l.Accept? {
      AcceptView(s, l.p, r);
      LocalOfOffer(s.objs[r], l.p.msg);
    } else if l.On? {
      if l.r == r { LocalStep(s.objs[r], l.act); }
    } else {
      QuietStep(s, l, r);
      LocalOfSameWork(s.objs[r], Apply(s, l).objs[r]);
    }
  }

  lemma SegmentHolds(s: State, l: Label, r: nat)
    requires Wf(s) && Enabled(s, l) && r < |s.objs| && ObjectOk(s, r)
    ensures r < |Apply(s, l).objs| && SegmentAt(Apply(s, l), r)
  {
    StepFollows(s, l, r);
    if l.Accept? {
      SegmentAccept(s, l.p, r);
    } else if l.On? {
      SegmentOn(s, l.r, l.act, r);
    } else {
      SegmentQuiet(s, l, r);
    }
  }

  lemma ObjectStep(s: State, l: Label, r: nat)
    requires Wf(s) && Enabled(s, l) && r < |s.objs| && ObjectOk(s, r)
    ensures r < |Apply(s, l).objs| && ObjectOk(Apply(s, l), r)
  {
    SegmentHolds(s, l, r);
    HoleFreeStep(s, l, r);
    LocalHolds(s, l, r);
  }

  lemma ObjectNew(s: State, p: Packet)
    requires Wf(s) && Enabled(s, Accept(p)) && p.stream !in s.streams
    ensures ObjectOk(Apply(s, Accept(p)), |s.objs|) && Kept(Apply(s, Accept(p)), |s.objs|)
  {
    SegmentNew(s, p);
  }
}
