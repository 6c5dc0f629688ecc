/** When a reset can overtake a response. Removing a stream by id lets a later object under the same
    id answer with a reset of its own; unless the stream's queue is found full, that happens only
    after its handler has said all it had to say. A full queue makes the read loop itself send a
    reset, and what the handler says after that is out of order. Interim responses, which come from
    the transport and not from the handler, are left out of the order throughout. */
module ResponseOrder {
  import opened Messages
  import opened Options
  import opened Scripts
  import opened AgentMux
  import opened AgentLife
  import opened AgentRuns
  import G = GatewayMux
  import GLife = GatewayLife
  import GLane = GatewayLane
  import T = Tunnel

  ghost predicate Foremost(s: State, r: nat)
    requires r < |s.objs|
  {
    forall q :: 0 <= q < r ==> s.objs[q].id != s.objs[r].id
  }

  ghost predicate Latest(s: State, r: nat)
    requires r < |s.objs|
  {
    forall q :: r < q < |s.objs| ==> s.objs[q].id != s.objs[r].id
  }

  ghost predicate Alone(s: State, r: nat)
    requires r < |s.objs|
  {
    forall q :: 0 <= q < |s.objs| && q != r ==> s.objs[q].id != s.objs[r].id
  }

  /** The handler has not yet begun to take its stream out of the map. */
  predicate Present(o: Stream) {
    !o.handler.Removing? && !o.handler.Gone?
  }

  ghost predicate Holds(s: State, r: nat)
    requires r < |s.objs|
  {
    Alone(s, r) && (Mapped(s, r) || !s.teardown.Up?)
  }

  /** What was sent under an id, interim responses apart. */
  ghost function Under(s: State, id: nat): seq<Message> { Plain(For(s.outbox, id)) }

  /** `sent`, and then nothing but resets. */
  ghost predicate ThenResets(heard: seq<Message>, sent: seq<Message>) {
    sent <= heard && forall i :: |sent| <= i < |heard| ==> heard[i].Rst?
  }

  /** A reset right after the first n messages of `sent`. */
  ghost predicate Marked(heard: seq<Message>, sent: seq<Message>, n: nat) {
    n <= |sent| && n < |heard| && heard[..n] == sent[..n] && heard[n].Rst?
  }

  /** The first object made for an id: until its queue is found full it has the id to itself while
      its handler is there, and what was sent under the id begins with what its handler sent. The
      reset for a full queue goes where `shed` says. */
  ghost predicate OrderAt(s: State, r: nat)
    requires r < |s.objs|
  {
    Foremost(s, r) ==>
      var o, heard := s.objs[r], Under(s, s.objs[r].id);
      if r in s.shed then o.kind.Ws? || Marked(heard, o.sent, s.shed[r])
      else
        && (Present(o) ==> Holds(s, r))
        && (o.kind.Ws? || (o.sent <= heard && (Alone(s, r) ==> ThenResets(heard, o.sent))))
        && (o.handler.Waiting? || (o.kind.Http? && o.handler.Running?) ==> heard == o.sent)
  }

  ghost predicate LoopOk(s: State) {
    && (s.loop.Forgetting? ==> s.loop.ref in s.shed)
    && (s.loop.Delivering? || s.loop.Shedding? ==> s.loop.ref < |s.objs| && Latest(s, s.loop.ref))
    && (forall r :: r in s.shed ==> r < |s.objs|)
  }

  ghost predicate Ordered(s: State) {
    LoopOk(s) && forall r :: 0 <= r < |s.objs| ==> OrderAt(s, r)
  }

  // ----- what a step changes for the holder of an id -----

  lemma Unheard(s: State, id: nat)
    requires KnownIds(s) && forall q :: 0 <= q < |s.objs| ==> s.objs[q].id != id
    ensures Under(s, id) == []
  {
    ForAbsent(s.outbox, id);
  }

  lemma IdsKept(s: State, l: Label)
    requires Enabled(s, l)
    ensures |s.objs| <= |Apply(s, l).objs| && (!l.Accept? ==> |s.objs| == |Apply(s, l).objs|)
    ensures forall q :: 0 <= q < |s.objs| ==> Apply(s, l).objs[q].id == s.objs[q].id
  {
    forall q | 0 <= q < |s.objs| ensures q < |Apply(s, l).objs| && Apply(s, l).objs[q].id == s.objs[q].id {
      StepFollows(s, l, q);
    }
  }

  lemma LoopOkStep(s: State, l: Label)
    requires Wf(s) && Enabled(s, l) && LoopOk(s)
    ensures LoopOk(Apply(s, l))
  {
    IdsKept(s, l);
    if l.Accept? { AcceptedIsLatest(s, l.p); }
  }

  lemma AcceptedIsLatest(s: State, p: Packet)
    requires Wf(s) && Enabled(s, Accept(p))
    ensures var t := Apply(s, Accept(p)); t.loop.Delivering? && t.loop.ref < |t.objs| && Latest(t, t.loop.ref)
  {
    IdsKept(s, Accept(p));
    if p.stream in s.streams {
      var r := s.streams[p.stream];
      assert Mapped(s, r);
      forall q | r < q < |s.objs| ensures s.objs[q].id != s.objs[r].id {}
    }
  }

  lemma AloneStep(s: State, l: Label, r: nat)
    requires Wf(s) && Enabled(s, l) && r < |s.objs| && Holds(s, r)
    ensures r < |Apply(s, l).objs| && Alone(Apply(s, l), r)
  {
    IdsKept(s, l);
    if l.Accept? { assert Mapped(s, r); }
  }

  lemma HoldsStep(s: State, l: Label, r: nat)
    requires Wf(s) && Enabled(s, l) && r < |s.objs| && r !in s.shed && LoopOk(s)
    requires Holds(s, r) && l != HandlerForget(r)
    ensures r < |Apply(s, l).objs| && Holds(Apply(s, l), r)
  {
    AloneStep(s, l, r);
    IdsKept(s, l);
    if l.LoopForget? || l.HandlerForget? {
      assert Apply(s, l).streams.Keys >= s.streams.Keys - {s.objs[if l.LoopForget? then s.loop.ref else l.r].id};
    }
  }

  /** What a step adds under an id. */
  ghost function AddedUnder(s: State, l: Label, id: nat): seq<Message>
    requires Enabled(s, l)
  {
    var e := Emitted(s, l);
    if |e| == 1 && e[0].stream == id && !IsInterim(e[0].msg) then [e[0].msg] else []
  }

  lemma UnderStep(s: State, l: Label, id: nat)
    requires Enabled(s, l)
    ensures Under(Apply(s, l), id) == Under(s, id) + AddedUnder(s, l, id)
  {
    OutboxStep(s, l);
    var e := Emitted(s, l);
    if |e| == 1 {
      assert e == [e[0]];
      ForAppend(s.outbox, e[0], id);
      PlainAppend(For(s.outbox, id), e[0].msg);
      assert e[0].stream != id ==> For(s.outbox, id) + [] == For(s.outbox, id);
    } else {
      assert s.outbox + e == s.outbox;
    }
  }

  /** As long as an object has its id to itself, only its own acts are heard under it, and the reset
      for its full queue. */
  lemma NothingFromOthers(s: State, l: Label, r: nat)
    requires Enabled(s, l) && r < |s.objs| && Alone(s, r)
    requires !(l.On? && l.r == r) && !(l.ShedReset? && s.loop.ref == r)
    ensures AddedUnder(s, l, s.objs[r].id) == []
  {
  }

  /** Everywhere else but in an object's own acts, what it has sent stays, and it goes no further
      than out of the map. */
  lemma Elsewhere(s: State, l: Label, r: nat)
    requires Wf(s) && Enabled(s, l) && r < |s.objs| && !(l.On? && l.r == r)
    ensures r < |Apply(s, l).objs|
    ensures var o, p := s.objs[r], Apply(s, l).objs[r];
            && p.id == o.id && p.sent == o.sent && p.kind == o.kind
            && (p.handler == o.handler || p.handler.Removing? || p.handler.Gone?)
            && (Present(p) ==> Present(o) && l != HandlerForget(r))
  {
    match l
    case Accept(p) => AcceptView(s, p, r);
    case On(q, act) =>
    case _ => QuietStep(s, l, r); StepPresence(s, l, r);
  }

  lemma StepPresence(s: State, l: Label, r: nat)
    requires Enabled(s, l) && r < |s.objs| && !l.On? && !l.Accept?
    ensures Present(Apply(s, l).objs[r]) ==> Present(s.objs[r]) && l != HandlerForget(r)
  {
  }

  // ----- an object's own acts -----

  /** What an act of an object puts on the wire, an interim response apart. */
  function Voice(o: Stream, act: Act): seq<Message> {
    if act.Interim? || o.Says(act) == [] then [] else [o.Says(act)[0].msg]
  }

  lemma VoiceIsAdded(s: State, r: nat, act: Act)
    requires Enabled(s, On(r, act))
    ensures AddedUnder(s, On(r, act), s.objs[r].id) == Voice(s.objs[r], act)
  {
  }

  lemma OwnAct(o: Stream, act: Act)
    requires o.Can(act) && Local(o) && !o.Do(act).kind.Ws?
    ensures !o.kind.Ws?
    ensures o.handler.Running? && o.kind.Http? ==> o.Do(act).sent == o.sent + Voice(o, act)
    ensures !(o.handler.Running? && o.kind.Http?) ==>
              o.Do(act).sent == o.sent && (Voice(o, act) == [] || (Voice(o, act) == [Rst] && o.handler.Refusing?))
  {
    if Consumes(act) {
      ConsumeFacts(o, act);
    } else if Utters(act) {
      UtterFacts(o, act);
      OwnUtterance(o, act);
    } else {
      SilentFacts(o, act);
    }
  }

  /** Only a running HTTP handler utters anything, a WebSocket's and the transport's reports apart. */
  lemma OwnUtterance(o: Stream, act: Act)
    requires o.Can(act) && Local(o) && Utters(act) && !o.kind.Ws?
    ensures act.Interim? || (o.handler.Running? && o.kind.Http?)
    ensures o.Do(act).sent == o.sent + Voice(o, act)
  {
    if act.Emit? {
      SpeaksHttp(o, act.m);
    } else if act.RelayChunk? {
      RelaysHttp(o, act.data, act.sent);
    } else {
      assert act.Interim?;
    }
  }

  lemma SpeaksHttp(o: Stream, m: Message)
    requires o.Can(Emit(m)) && !o.kind.Ws?
    ensures o.handler.Running? && o.kind.Http?
    ensures o.Do(Emit(m)).sent == o.sent + Voice(o, Emit(m))
  {
  }

  lemma RelaysHttp(o: Stream, data: Bytes, ok: bool)
    requires o.Can(RelayChunk(data, ok))
    ensures o.handler.Running? && o.kind.Http?
    ensures o.Do(RelayChunk(data, ok)).sent == o.sent + Voice(o, RelayChunk(data, ok))
  {
  }

  lemma OwnProgress(o: Stream, act: Act)
    requires o.Can(act) && Local(o) && !o.Do(act).kind.Ws?
    ensures o.Do(act).handler.Running? ==> o.handler.Waiting? || (o.handler.Running? && o.Do(act).kind == o.kind)
    ensures o.Do(act).handler.Waiting? ==> o.handler.Waiting?
  {
    if Consumes(act) { ConsumeFacts(o, act); } else { OtherActFacts(o, act); }
  }

  ghost predicate InVoice(o: Stream, heard: seq<Message>) {
    && o.sent <= heard
    && (o.handler.Waiting? || (o.kind.Http? && o.handler.Running?) ==> heard == o.sent)
  }

  lemma OwnVoice(o: Stream, act: Act, heard: seq<Message>)
    requires o.Can(act) && Local(o) && !o.Do(act).kind.Ws? && InVoice(o, heard)
    ensures InVoice(o.Do(act), heard + Voice(o, act))
    ensures ThenResets(heard, o.sent) ==> ThenResets(heard + Voice(o, act), o.Do(act).sent)
  {
    OwnAct(o, act);
    OwnProgress(o, act);
    assert heard + [] == heard;
  }

  lemma OwnSent(o: Stream, act: Act)
    requires o.Can(act)
    ensures o.sent <= o.Do(act).sent
  {
    if Consumes(act) { ConsumeFacts(o, act); }
  }

  lemma OrderOwn(s: State, act: Act, r: nat)
    requires Wf(s) && Ordered(s) && Enabled(s, On(r, act)) && Local(s.objs[r])
    ensures OrderAt(Apply(s, On(r, act)), r)
  {
    IdsKept(s, On(r, act));
    assert OrderAt(s, r);
    if Foremost(s, r) {
      if r in s.shed { OrderOwnShed(s, act, r); } else { OrderOwnUnshed(s, act, r); }
    }
  }

  lemma OrderOwnShed(s: State, act: Act, r: nat)
    requires Enabled(s, On(r, act)) && r in s.shed && Foremost(s, r) && OrderAt(s, r)
    ensures OrderAt(Apply(s, On(r, act)), r)
  {
    var o, t := s.objs[r], Apply(s, On(r, act));
    ActFacts(o, act);
    OwnKind(o, act);
    OwnSent(o, act);
    UnderStep(s, On(r, act), o.id);
    if !o.kind.Ws? { MarkedStays(Under(s, o.id), Under(t, o.id), o.sent, o.Do(act).sent, s.shed[r]); }
  }

  lemma MarkedStays(heard: seq<Message>, more: seq<Message>, sent: seq<Message>, later: seq<Message>, n: nat)
    requires Marked(heard, sent, n) && heard <= more && sent <= later
    ensures Marked(more, later, n)
  {
    assert more[..n] == heard[..n] && later[..n] == sent[..n];
  }

  lemma OrderOwnUnshed(s: State, act: Act, r: nat)
    requires Wf(s) && LoopOk(s) && Enabled(s, On(r, act)) && Local(s.objs[r])
    requires r !in s.shed && Foremost(s, r) && OrderAt(s, r)
    ensures OrderAt(Apply(s, On(r, act)), r)
  {
    var o, l := s.objs[r], On(r, act);
    ActFacts(o, act);
    OwnKind(o, act);
    IdsKept(s, l);
    UnderStep(s, l, o.id);
    VoiceIsAdded(s, r, act);
    if Present(o) { HoldsStep(s, l, r); }
    if !o.Do(act).kind.Ws? {
      OwnVoice(o, act, Under(s, o.id));
    } else {
      OwnSpoken(o, act);
    }
  }

  lemma OwnSpoken(o: Stream, act: Act)
    requires o.Can(act) && Local(o) && o.Do(act).kind.Ws?
    ensures !o.Do(act).handler.Waiting?
  {
    if Consumes(act) { ConsumeFacts(o, act); } else { OtherActFacts(o, act); }
  }

  lemma OwnKind(o: Stream, act: Act)
    requires o.Can(act)
    ensures o.kind.Ws? ==> o.Do(act).kind.Ws?
  {
    if Consumes(act) { ConsumeFacts(o, act); } else { OtherActFacts(o, act); }
  }

  // ----- every run -----

  lemma OrderElsewhere(s: State, l: Label, r: nat)
    requires Wf(s) && Ordered(s) && Enabled(s, l) && r < |s.objs|
    requires !(l.On? && l.r == r) && !(l.ShedReset? && s.loop.ref == r)
    ensures r < |Apply(s, l).objs| && OrderAt(Apply(s, l), r)
  {
    var t := Apply(s, l);
    IdsKept(s, l);
    Elsewhere(s, l, r);
    UnderStep(s, l, s.objs[r].id);
    assert OrderAt(s, r);
    if Foremost(s, r) && r !in s.shed {
      if Present(t.objs[r]) { HoldsStep(s, l, r); }
      if Alone(s, r) { NothingFromOthers(s, l, r); }
    }
  }

  /** The reset for a full queue: it is written behind all that the object has sent so far. */
  lemma OrderShed(s: State)
    requires Wf(s) && Ordered(s) && Enabled(s, ShedReset)
    ensures OrderAt(Apply(s, ShedReset), s.loop.ref)
  {
    var r := s.loop.ref;
    IdsKept(s, ShedReset);
    assert OrderAt(s, r);
    UnderStep(s, ShedReset, s.objs[r].id);
    if Foremost(s, r) && r !in s.shed && !s.objs[r].kind.Ws? {
      assert Alone(s, r);
      assert AddedUnder(s, ShedReset, s.objs[r].id) == [Rst];
      ResetBehind(Under(s, s.objs[r].id), s.objs[r].sent);
    }
  }

  lemma ResetBehind(heard: seq<Message>, sent: seq<Message>)
    requires ThenResets(heard, sent)
    ensures Marked(heard + [Rst], sent, |sent|)
  {
  }

  lemma OrderNew(s: State, p: Packet)
    requires Wf(s) && KnownIds(s) && Ordered(s) && Enabled(s, Accept(p)) && p.stream !in s.streams
    ensures OrderAt(Apply(s, Accept(p)), |s.objs|)
  {
    var t, r := Apply(s, Accept(p)), |s.objs|;
    IdsKept(s, Accept(p));
    if Foremost(t, r) {
      forall q | 0 <= q < |s.objs| ensures s.objs[q].id != p.stream { assert t.objs[q].id == s.objs[q].id; }
      Unheard(s, p.stream);
    }
  }

  lemma OrderStep(s: State, l: Label)
    requires Good(s) && Ordered(s) && Enabled(s, l)
    ensures Ordered(Apply(s, l))
  {
    var t := Apply(s, l);
    IdsKept(s, l);
    LoopOkStep(s, l);
    forall r | 0 <= r < |t.objs| ensures OrderAt(t, r) {
      if r == |s.objs| {
        OrderNew(s, l.p);
      } else if l.On? && l.r == r {
        assert ObjectOk(s, r);
        OrderOwn(s, l.act, r);
      } else if l.ShedReset? && s.loop.ref == r {
        OrderShed(s);
      } else {
        OrderElsewhere(s, l, r);
      }
    }
  }

  lemma {:induction false} OrderRun(tcpTarget: bool, ls: seq<Label>)
    requires After(Init(tcpTarget), ls).Some?
    ensures Ordered(After(Init(tcpTarget), ls).value)
  {
    if ls == [] {
    } else {
      var n := |ls| - 1;
      OrderRun(tcpTarget, ls[..n]);
      AgentRuns.GoodRun(tcpTarget, ls[..n]);
      OrderStep(After(Init(tcpTarget), ls[..n]).value, ls[n]);
    }
  }

  // ----- the results -----

  predicate ResetsLast(ms: seq<Message>) {
    forall i, j :: 0 <= i < j < |ms| && ms[i].Rst? ==> ms[j].Rst?
  }

  /** An object whose queue was found full has sent nothing since the reset for it. */
  predicate QuietSince(s: State, r: nat) {
    r < |s.objs| && (r in s.shed ==> s.shed[r] == |s.objs[r].sent|)
  }

  lemma {:induction false} SpokenIsShorter(ms: seq<Message>)
    ensures |Spoken(ms)| <= |ms|
  {
    if ms != [] { SpokenIsShorter(ms[..|ms| - 1]); }
  }

  lemma {:induction false} NoInterimInPlain(ms: seq<Message>)
    ensures forall i :: 0 <= i < |Plain(ms)| ==> !IsInterim(Plain(ms)[i])
  {
    if ms != [] { NoInterimInPlain(ms[..|ms| - 1]); }
  }

  lemma ResetsSayNothing(ms: seq<Message>)
    requires forall i :: 0 <= i < |ms| ==> ms[i].Rst?
    ensures Spoken(ms) == []
  {
    if Spoken(ms) != [] {
      var m := Spoken(ms)[0];
      SpokenHas(ms, m);
      assert false;
    }
  }

  lemma NothingSaidButResets(ms: seq<Message>)
    requires Spoken(ms) == [] && forall i :: 0 <= i < |ms| ==> !IsInterim(ms[i])
    ensures forall i :: 0 <= i < |ms| ==> ms[i].Rst?
  {
    forall i | 0 <= i < |ms| ensures ms[i].Rst? { SpokenHas(ms, ms[i]); }
  }

  lemma SpeechHasNoResets(heard: seq<Message>)
    ensures forall i :: 0 <= i < |Spoken(heard)| ==> IsSpoken(Spoken(heard)[i])
  {
    forall i | 0 <= i < |Spoken(heard)| ensures IsSpoken(Spoken(heard)[i]) { SpokenHas(heard, Spoken(heard)[i]); }
  }

  /** What follows a beginning that is all that was spoken consists of resets. */
  lemma RestIsResets(heard: seq<Message>, sent: seq<Message>)
    requires Spoken(heard) == sent && sent <= heard && forall i :: 0 <= i < |heard| ==> !IsInterim(heard[i])
    ensures ThenResets(heard, sent) && ResetsLast(heard)
    ensures forall i :: 0 <= i < |sent| ==> !sent[i].Rst?
  {
    var rest := heard[|sent|..];
    assert heard == sent + rest;
    SpeechHasNoResets(heard);
    forall m | m in sent ensures IsSpoken(m) { SpokenHas(heard, m); }
    SpokenIdentity(sent);
    SpokenConcat(sent, rest);
    NothingSaidButResets(rest);
    forall i | |sent| <= i < |heard| ensures heard[i].Rst? { assert heard[i] == rest[i - |sent|]; }
  }

  /** If resets come last, all that was spoken stands before the first of them. */
  lemma SpokenBeforeReset(heard: seq<Message>, n: nat)
    requires n < |heard| && heard[n].Rst? && ResetsLast(heard)
    ensures |Spoken(heard)| <= n
  {
    var rest := heard[n..];
    assert heard == heard[..n] + rest;
    forall i | 0 <= i < |rest| ensures rest[i].Rst? { assert rest[i] == heard[n + i]; }
    ResetsSayNothing(rest);
    SpokenConcat(heard[..n], rest);
    SpokenIsShorter(heard[..n]);
  }

  /** Of what was sent under the id of an HTTP object that was the first for it, the resets come last
      if and only if, when its queue was first found full, it had already sent all it ever sent. */
  lemma ResetsLastExactlyWhen(s: State, r: nat)
    requires r < |s.objs| && OrderAt(s, r) && Foremost(s, r) && s.objs[r].kind.Http?
    requires Spoken(For(s.outbox, s.objs[r].id)) == s.objs[r].sent
    ensures ResetsLast(Under(s, s.objs[r].id)) <==> QuietSince(s, r)
    ensures QuietSince(s, r) ==> ThenResets(Under(s, s.objs[r].id), s.objs[r].sent)
    ensures forall i :: 0 <= i < |s.objs[r].sent| ==> !s.objs[r].sent[i].Rst?
  {
    var all := For(s.outbox, s.objs[r].id);
    var heard, sent := Under(s, s.objs[r].id), s.objs[r].sent;
    SpokenOfPlain(all);
    NoInterimInPlain(all);
    SpeechHasNoResets(all);
    if QuietSince(s, r) {
      assert r in s.shed ==> sent[..|sent|] == sent;
      RestIsResets(heard, sent);
    } else if ResetsLast(heard) {
      SpokenBeforeReset(heard, s.shed[r]);
    }
  }

  /** Over every run of the tunnel, for every HTTP request that was dispatched: the resets under its
      id come after the whole response if and only if the agent has not gone on with the response
      after finding the request's queue full. When that holds, a gateway handler that takes a reset
      has taken the whole response before it. */
  lemma ResetsComeLastExactlyWhen(config: G.Config, tcpTarget: bool, ls: seq<T.Label>, s: T.State, r: nat, o: nat)
    requires T.Reaches(config, tcpTarget, ls, s) && |s.g.objs| <= GLife.PERIOD && r < |s.g.objs|
    requires o < |s.a.objs| && s.a.objs[o].kind.Http? && s.a.objs[o].id == s.g.objs[r].id
    ensures ResetsLast(Under(s.a, s.a.objs[o].id)) <==> QuietSince(s.a, o)
    ensures QuietSince(s.a, o) ==>
              && ThenResets(Under(s.a, s.a.objs[o].id), s.a.objs[o].sent)
              && (forall i :: 0 <= i < |s.g.objs[r].Heard()| && s.g.objs[r].Heard()[i].Rst? ==>
                    s.a.objs[o].sent <= Plain(s.g.objs[r].Heard()[..i]))
  {
    T.GoodRun(config, tcpTarget, ls);
    var gls, als := T.Ends(config, tcpTarget, ls);
    OrderRun(tcpTarget, als);
    assert OrderAt(s.a, o);
    DispatchedIsFirst(s, o);
    T.AtMostOneDispatch(config, tcpTarget, ls, s, o);
    ResetsLastExactlyWhen(s.a, o);
    T.UpwardChannel(config, tcpTarget, ls, s, r);
    if QuietSince(s.a, o) {
      var heard, all := s.g.objs[r].Heard(), For(s.a.outbox, s.a.objs[o].id);
      forall i | 0 <= i < |heard| && heard[i].Rst? ensures s.a.objs[o].sent <= Plain(heard[..i]) {
        TakenBeforeReset(heard, all, s.a.objs[o].sent, i);
      }
    }
  }

  lemma TakenBeforeReset(taken: seq<Message>, all: seq<Message>, sent: seq<Message>, i: nat)
    requires taken <= all && i < |taken| && taken[i].Rst? && ThenResets(Plain(all), sent)
    requires forall k :: 0 <= k < |sent| ==> !sent[k].Rst?
    ensures sent <= Plain(taken[..i])
  {
    var before := taken[..i];
    assert taken[..i + 1] == before + [taken[i]] && taken[..i + 1] <= all && before <= all;
    PlainAppend(before, taken[i]);
    PlainPrefix(taken[..i + 1], all);
    PlainPrefix(before, all);
    assert Plain(all)[|Plain(before)|].Rst?;
  }

  lemma DispatchedIsFirst(s: T.State, o: nat)
    requires T.Good(s) && |s.g.objs| <= GLife.PERIOD && o < |s.a.objs| && s.a.objs[o].Dispatched()
    ensures Foremost(s.a, o)
  {
    var r := T.DispatchedFromTheStart(s, o);
    forall q | 0 <= q < o ensures s.a.objs[q].id != s.a.objs[o].id { assert ObjectOk(s.a, q); }
  }

  // ----- what decides it when a queue is found full -----

  /** The handler of an HTTP object has nothing more to say. */
  predicate SaidAll(o: Stream) {
    o.kind.Http? && (Responding(o.sent).Ended? || !o.handler.Running?)
  }

  lemma SaidAllAct(o: Stream, act: Act)
    requires o.Can(act) && Local(o) && SaidAll(o)
    ensures SaidAll(o.Do(act)) && o.Do(act).sent == o.sent
  {
    if Consumes(act) {
      ConsumeFacts(o, act);
    } else if act.Emit? {
      RespondingAppend(o.sent, act.m);
    } else {
      OtherActFacts(o, act);
      if !Utters(act) { SilentFacts(o, act); }
    }
  }

  lemma SaidAllStep(s: State, l: Label, r: nat)
    requires Good(s) && Enabled(s, l) && r < |s.objs| && SaidAll(s.objs[r])
    ensures r < |Apply(s, l).objs| && SaidAll(Apply(s, l).objs[r]) && Apply(s, l).objs[r].sent == s.objs[r].sent
  {
    if l.On? && l.r == r {
      assert ObjectOk(s, r);
      SaidAllAct(s.objs[r], l.act);
    } else {
      Elsewhere(s, l, r);
    }
  }

  lemma ShedStays(s: State, l: Label, r: nat)
    requires Enabled(s, l) && r in s.shed
    ensures r in Apply(s, l).shed && Apply(s, l).shed[r] == s.shed[r]
  {
  }

  lemma {:induction false} SaidAllRun(s: State, ls: seq<Label>, r: nat)
    requires Good(s) && After(s, ls).Some? && r < |s.objs| && SaidAll(s.objs[r])
    requires r in s.shed && QuietSince(s, r)
    ensures var t := After(s, ls).value;
            && Good(t) && r < |t.objs| && SaidAll(t.objs[r]) && t.objs[r].sent == s.objs[r].sent
            && r in t.shed && t.shed[r] == s.shed[r]
  {
    if ls == [] {
    } else {
      var n := |ls| - 1;
      SaidAllRun(s, ls[..n], r);
      var m := After(s, ls[..n]).value;
      AgentRuns.GoodStep(m, ls[n]);
      SaidAllStep(m, ls[n], r);
      ShedStays(m, ls[n], r);
    }
  }

  /** The next thing a running HTTP handler may send. */
  function NextSpeech(o: Stream): Message {
    if Responding(o.sent).Idle? then ResStart(false, false) else ResEnd
  }

  lemma StillSpeaks(s: State, r: nat)
    requires r < |s.objs| && Local(s.objs[r]) && s.objs[r].kind.Http? && !SaidAll(s.objs[r])
    ensures After(s, [On(r, Emit(NextSpeech(s.objs[r])))]).Some?
    ensures var t := After(s, [On(r, Emit(NextSpeech(s.objs[r])))]).value;
            t.shed == s.shed && |t.objs| == |s.objs| && |t.objs[r].sent| == |s.objs[r].sent| + 1
  {
    var m, o := NextSpeech(s.objs[r]), s.objs[r];
    RespondingAppend(o.sent, m);
    assert o.Can(Emit(m));
    assert [] + [On(r, Emit(m))] == [On(r, Emit(m))];
    var ls := [On(r, Emit(m))];
    assert ls[..0] == [] && After(s, ls[..0]) == Some(s);
  }

  /** When the agent resets an HTTP request for its full queue for the first time, all that may still
      happen keeps the resets last if and only if the response is complete by then or its handler has
      already left. */
  lemma OverflowIsSafeExactlyWhen(tcpTarget: bool, ls: seq<Label>, s: State)
    requires After(Init(tcpTarget), ls) == Some(s) && Enabled(s, ShedReset)
    requires s.objs[s.loop.ref].kind.Http? && s.loop.ref !in s.shed
    ensures (forall ms :: After(Apply(s, ShedReset), ms).Some? ==>
               QuietSince(After(Apply(s, ShedReset), ms).value, s.loop.ref)) <==>
            Responding(s.objs[s.loop.ref].sent).Ended? || !s.objs[s.loop.ref].handler.Running?
  {
    var r, t := s.loop.ref, Apply(s, ShedReset);
    AgentRuns.GoodRun(tcpTarget, ls);
    AgentRuns.GoodStep(s, ShedReset);
    assert ObjectOk(t, r) && t.objs == s.objs && t.shed[r] == |s.objs[r].sent|;
    if SaidAll(s.objs[r]) {
      forall ms | After(t, ms).Some? ensures QuietSince(After(t, ms).value, r) { SaidAllRun(t, ms, r); }
    } else {
      StillSpeaks(t, r);
      var ms := [On(r, Emit(NextSpeech(t.objs[r])))];
      assert After(t, ms).Some? && !QuietSince(After(t, ms).value, r);
    }
  }

  // ----- with a full queue it is otherwise -----

  const START := ReqStart(true, false)
  const CHUNK := ReqData([7])

  function Chunks(n: nat): seq<Message> { if n == 0 then [] else Chunks(n - 1) + [CHUNK] }

  function Arrivals(n: nat): seq<Packet> {
    if n == 0 then [Packet(1, START)] else Arrivals(n - 1) + [Packet(1, CHUNK)]
  }

  /** A handler that has answered with its ResStart while n chunks of the request wait for it. */
  function Backlog(n: nat): State {
    State(false, map[1 := 0],
          [Stream(1, Chunks(n), false, false, Http, Running, Pumping, false, false, [], [],
                  [START] + Chunks(n), [START], [ResStart(false, false)], Neither, [], false, 0, 0)],
          Reading, Up, Arrivals(n), [Packet(1, ResStart(false, false))], map[])
  }

  lemma Extend(ls: seq<Label>, s: State, l: Label) returns (ls': seq<Label>, s': State)
    requires After(Init(false), ls) == Some(s) && Enabled(s, l)
    ensures After(Init(false), ls') == Some(s') && s' == Apply(s, l)
  {
    assert (ls + [l])[..|ls|] == ls;
    ls', s' := ls + [l], Apply(s, l);
  }

  lemma OneMore(ls: seq<Label>, s: State, m: Message) returns (ls': seq<Label>, s': State)
    requires After(Init(false), ls) == Some(s) && s.loop.Reading? && s.streams == map[1 := 0] && |s.objs| == 1
    ensures After(Init(false), ls') == Some(s')
    ensures var o := s.objs[0];
            s' == s.(inbox := s.inbox + [Packet(1, m)], loop := Delivering(0, m),
                     objs := [o.(offered := o.offered + [m])])
  {
    ls', s' := Extend(ls, s, Accept(Packet(1, m)));
    assert s'.streams == s.streams;
  }

  lemma ExtendOn(ls: seq<Label>, s: State, act: Act) returns (ls': seq<Label>, s': State)
    requires After(Init(false), ls) == Some(s) && |s.objs| == 1 && s.objs[0].Can(act) && !s.tcpTarget
    requires act.First? ==> !act.tcpTarget
    ensures After(Init(false), ls') == Some(s')
    ensures s' == s.(objs := [s.objs[0].Do(act)], outbox := s.outbox + s.objs[0].Says(act))
  {
    ls', s' := Extend(ls, s, On(0, act));
  }

  lemma Created() returns (ls: seq<Label>, s: State)
    ensures After(Init(false), ls) == Some(s)
    ensures s.objs == [NewStream(1, 0).(offered := [START])] && s.streams == map[1 := 0]
    ensures !s.tcpTarget && s.loop == Delivering(0, START) && s.teardown.Up? && s.inbox == Arrivals(0)
    ensures s.outbox == [] && s.shed == map[]
  {
    FirstAccepted();
    ls, s := Extend([], Init(false), Accept(Packet(1, START)));
  }

  lemma FirstAccepted()
    ensures var s := Accepting(Init(false), Packet(1, START));
            && s.objs == [NewStream(1, 0).(offered := [START])] && s.streams == map[1 := 0]
            && !s.tcpTarget && s.loop == Delivering(0, START) && s.teardown.Up? && s.inbox == Arrivals(0)
            && s.outbox == [] && s.shed == map[]
  {
    var o := NewStream(1, 0);
    assert o.offered + [START] == [START];
    assert [] + [Packet(1, START)] == [Packet(1, START)];
    assert For([], 1) == [];
  }

  lemma Arrived() returns (ls: seq<Label>, s: State)
    ensures After(Init(false), ls) == Some(s)
    ensures s.objs == [NewStream(1, 0).(rx := [START], offered := [START])] && s.streams == map[1 := 0]
    ensures !s.tcpTarget && s.loop.Reading? && s.teardown.Up? && s.inbox == Arrivals(0)
    ensures s.outbox == [] && s.shed == map[]
  {
    ls, s := Created();
    var o := s.objs[0];
    assert o.rx + [START] == [START];
    ls, s := Extend(ls, s, Enqueue);
    assert s.objs[0] == o.(rx := [START]);
  }

  lemma Started() returns (ls: seq<Label>)
    ensures After(Init(false), ls) == Some(Backlog(0))
  {
    var s;
    ls, s := Arrived();
    ls, s := ExtendOn(ls, s, First(false));
    assert s.objs[0].rx == [] && s.objs[0].taken == [START];
    RespondingAppend([], ResStart(false, false));
    ls, s := ExtendOn(ls, s, Emit(ResStart(false, false)));
    assert s.objs[0].sent == [ResStart(false, false)] && s.outbox == [Packet(1, ResStart(false, false))];
    assert [START] + Chunks(0) == [START];
  }

  lemma {:induction false} Waiting(n: nat) returns (ls: seq<Label>)
    requires n <= STREAM_QUEUE_FRAMES
    ensures After(Init(false), ls) == Some(Backlog(n)) && |Chunks(n)| == n
  {
    if n == 0 {
      ls := Started();
    } else {
      ls := Waiting(n - 1);
      var s := Backlog(n - 1);
      ls, s := OneMore(ls, s, CHUNK);
      ls, s := Extend(ls, s, Enqueue);
      assert [START] + Chunks(n) == [START] + Chunks(n - 1) + [CHUNK];
      assert s == Backlog(n);
    }
  }

  /** A full queue at the agent lets its reset overtake the end of a response: the handler only
      learns of it later, and a response that breaks off still ends in ResEnd. */
  lemma OverflowOvertakesTheResponse() returns (ls: seq<Label>, s: State)
    ensures After(Init(false), ls) == Some(s) && |s.objs| == 1 && s.objs[0].kind.Http?
    ensures For(s.outbox, 1) == [ResStart(false, false), Rst, ResEnd]
  {
    ls := Waiting(STREAM_QUEUE_FRAMES);
    s := Backlog(STREAM_QUEUE_FRAMES);
    ls, s := OneMore(ls, s, CHUNK);
    ls, s := Extend(ls, s, Overflow);
    ls, s := Extend(ls, s, ShedReset);
    AfterStart();
    ls, s := ExtendOn(ls, s, Emit(ResEnd));
    assert s.outbox == [Packet(1, ResStart(false, false)), Packet(1, Rst), Packet(1, ResEnd)];
    ThreeFrames(ResStart(false, false), Rst, ResEnd);
  }

  lemma AfterStart()
    ensures !Responding([ResStart(false, false)] + [ResEnd]).Illegal?
  {
    RespondingAppend([ResStart(false, false)], ResEnd);
    assert Responding([ResStart(false, false)]).Body?;
  }

  lemma ThreeFrames(a: Message, b: Message, c: Message)
    ensures For([Packet(1, a), Packet(1, b), Packet(1, c)], 1) == [a, b, c]
  {
    var x, y, z := Packet(1, a), Packet(1, b), Packet(1, c);
    ForAppend([], x, 1);
    ForAppend([x], y, 1);
    ForAppend([x, y], z, 1);
    assert [] + [x] == [x] && [x] + [y] == [x, y] && [x, y] + [z] == [x, y, z];
  }
}
