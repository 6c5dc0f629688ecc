/** What the gateway puts on the wire, over every run. */
module GatewayRuns {
  import opened Messages
  import opened Options
  import opened Scripts
  import opened WsMessages
  import opened GatewayMux
  import opened GatewayLife

  /** Nothing is sent under an id that no stream was opened with. */
  ghost predicate KnownIds(s: State) {
    forall p :: p in s.outbox ==> exists r :: 0 <= r < |s.objs| && s.objs[r].id == p.stream
  }

  /** Each handler keeps to its script. */
  ghost predicate Legal(s: State) {
    forall r :: 0 <= r < |s.objs| ==> !Requesting(s.objs[r].sent).Illegal?
  }

  /** What is on the wire under a stream's id is what was sent for that stream. */
  ghost predicate SentInv(s: State) {
    forall r :: 0 <= r < |s.objs| ==> For(s.outbox, s.objs[r].id) == s.objs[r].sent
  }

  /** The body bytes sent are a beginning of those read from the client, all of them unless the
      handler gave up, and always once ReqEnd is out. WebSocket traffic goes out only to an agent
      that has reported the expected relay mode, and it carries what the client said. */
  ghost predicate Backed(o: Stream) {
    && RequestBytes(o.sent) <= o.read
    && (!o.left || Requesting(o.sent).Ended? ==> RequestBytes(o.sent) == o.read)
    && (forall m :: m in o.sent && (m.WsC2A? || m.WsClose?) ==> o.Opened())
    && Echoes(o.mode, o.sent, o.said, o.hushed)
  }

  /** Nothing is received before the request is out; after an answer that is not the expected mode
      nothing more is, and the handler leaves with a reset unless it finds the stream closed. */
  ghost predicate Screened(o: Stream) {
    && (Requesting(o.sent).Idle? ==> o.taken == [])
    && (o.Mismatched() ==> |o.taken| == 1 && (o.left ==> Rst in o.sent || o.Closed()))
  }

  ghost predicate AllBacked(s: State) {
    forall r :: 0 <= r < |s.objs| ==> Backed(s.objs[r]) && Screened(s.objs[r])
  }

  ghost predicate Good(s: State) {
    && Wf(s) && IdsInv(s) && SegmentInv(s) && KnownIds(s) && Legal(s) && AllBacked(s)
    && (|s.objs| <= PERIOD ==> SentInv(s))
  }

  ghost function Said(s: State, l: Label): seq<Packet>
    requires Enabled(s, l)
  {
    if l.On? then s.objs[l.r].Says(l.act) else []
  }

  lemma ActSays(o: Stream, act: Act)
    requires o.Can(act) && !Requesting(o.sent).Illegal?
    ensures o.Do(act).id == o.id && !Requesting(o.Do(act).sent).Illegal?
    ensures o.Says(act) == [] ==> o.Do(act).sent == o.sent
    ensures o.Says(act) != [] ==>
              |o.Says(act)| == 1 && o.Says(act)[0].stream == o.id && o.Do(act).sent == o.sent + [o.Says(act)[0].msg]
  {
    if IsQueueAct(act) {
      QueueKeeps(o, act);
    } else {
      TalkKeeps(o, act);
      TalkSays(o, act);
    }
  }

  lemma TalkSays(o: Stream, act: Act)
    requires o.Can(act) && !Requesting(o.sent).Illegal? && !IsQueueAct(act)
    ensures !Requesting(o.Do(act).sent).Illegal?
    ensures o.Says(act) == [] ==> o.Do(act).sent == o.sent
    ensures o.Says(act) != [] ==>
              |o.Says(act)| == 1 && o.Says(act)[0].stream == o.id && o.Do(act).sent == o.sent + [o.Says(act)[0].msg]
  {
    SaysItsSpeech(o, act);
    if o.Says(act) != [] {
      SaysLegally(o, act);
      RequestingAppend(o.sent, o.Says(act)[0].msg);
    }
  }

  lemma SaysItsSpeech(o: Stream, act: Act)
    requires o.Can(act) && !IsQueueAct(act)
    ensures o.Says(act) == [] ==> o.Do(act).sent == o.sent
    ensures o.Says(act) != [] ==>
              |o.Says(act)| == 1 && o.Says(act)[0].stream == o.id && o.Do(act).sent == o.sent + [o.Says(act)[0].msg]
  {
  }

  lemma SaysLegally(o: Stream, act: Act)
    requires o.Can(act) && !Requesting(o.sent).Illegal? && o.Says(act) != []
    ensures !NextRequest(Requesting(o.sent), o.Says(act)[0].msg).Illegal?
  {
    if act.Send? { RequestingAppend(o.sent, act.m); }
  }

  lemma WireStep(s: State, l: Label)
    requires Enabled(s, l) && Legal(s)
    ensures Apply(s, l).outbox == s.outbox + Said(s, l)
    ensures Legal(Apply(s, l))
    ensures |Said(s, l)| <= 1 && (l.On? ==> forall p :: p in Said(s, l) ==> p.stream == s.objs[l.r].id)
  {
    if l.On? { ActSays(s.objs[l.r], l.act); }
  }

  lemma KnownIdsStep(s: State, l: Label)
    requires Enabled(s, l) && Legal(s) && KnownIds(s)
    ensures KnownIds(Apply(s, l))
  {
    var t := Apply(s, l);
    WireStep(s, l);
    forall p | p in t.outbox ensures exists r :: 0 <= r < |t.objs| && t.objs[r].id == p.stream {
      var r :| 0 <= r < |s.objs| && s.objs[r].id == p.stream;
      if !l.OpenStream? { StepKeepsIds(s, l); }
      assert t.objs[r].id == p.stream;
    }
  }

  lemma UnknownIdUnheard(s: State, id: nat)
    requires KnownIds(s) && forall r :: 0 <= r < |s.objs| ==> s.objs[r].id != id
    ensures For(s.outbox, id) == []
  {
    forall p | p in s.outbox ensures p.stream != id {
      var r :| 0 <= r < |s.objs| && s.objs[r].id == p.stream;
    }
    ForAbsent(s.outbox, id);
  }

  lemma SentOpen(s: State)
    requires Enabled(s, OpenStream) && IdsInv(s) && KnownIds(s) && SentInv(s) && |s.objs| < PERIOD
    ensures SentInv(Apply(s, OpenStream))
  {
    forall r | 0 <= r < |s.objs| ensures s.objs[r].id != NextId(s.counter) {
      SmallIdsDiffer(s, r, |s.objs|);
    }
    UnknownIdUnheard(s, NextId(s.counter));
  }

  lemma SentOn(s: State, q: nat, act: Act, r: nat)
    requires Enabled(s, On(q, act)) && IdsInv(s) && Legal(s) && SentInv(s) && |s.objs| <= PERIOD && r < |s.objs|
    ensures var t := Apply(s, On(q, act)); For(t.outbox, t.objs[r].id) == t.objs[r].sent
  {
    var o := s.objs[q];
    ActSays(o, act);
    if q != r { SmallIdsDiffer(s, r, q); }
    if o.Says(act) == [] {
      assert s.outbox + [] == s.outbox;
    } else {
      assert o.Says(act) == [o.Says(act)[0]];
      ForAppend(s.outbox, o.Says(act)[0], s.objs[r].id);
    }
  }

  lemma SentStep(s: State, l: Label)
    requires Enabled(s, l) && IdsInv(s) && KnownIds(s) && Legal(s) && SentInv(s) && |Apply(s, l).objs| <= PERIOD
    ensures SentInv(Apply(s, l))
  {
    var t := Apply(s, l);
    match l
    case OpenStream => SentOpen(s);
    case On(q, act) =>
      forall r | 0 <= r < |t.objs| ensures For(t.outbox, t.objs[r].id) == t.objs[r].sent {
        SentOn(s, q, act, r);
      }
    case _ =>
      forall r | 0 <= r < |t.objs| ensures For(t.outbox, t.objs[r].id) == t.objs[r].sent {
        SilentStep(s, l, r);
      }
  }

  lemma SilentStep(s: State, l: Label, r: nat)
    requires Enabled(s, l) && !l.On? && !l.OpenStream? && r < |s.objs|
    ensures var t := Apply(s, l);
            && |t.objs| == |s.objs| && t.outbox == s.outbox
            && t.objs[r].id == s.objs[r].id && t.objs[r].sent == s.objs[r].sent
            && t.objs[r].read == s.objs[r].read && t.objs[r].left == s.objs[r].left
            && t.objs[r].taken == s.objs[r].taken && t.objs[r].mode == s.objs[r].mode
            && t.objs[r].said == s.objs[r].said && t.objs[r].hushed == s.objs[r].hushed
            && (s.objs[r].Closed() ==> t.objs[r].Closed())
  {
  }

  lemma BackedSend(o: Stream, m: Message)
    requires Backed(o) && o.Can(Send(m))
    ensures Backed(o.Do(Send(m)))
  {
    RequestingAppend(o.sent, m);
    RequestBytesAppend(o.sent, m);
    EchoesAside(o.mode, o.sent, o.said, o.hushed, m);
  }

  lemma BackedReset(o: Stream)
    requires Backed(o)
    ensures Backed(o.(sent := o.sent + [Rst])) && Backed(o.(sent := o.sent + [Rst], left := true))
  {
    var more := o.sent + [Rst];
    RequestingAppend(o.sent, Rst);
    RequestBytesAppend(o.sent, Rst);
    EchoesAside(o.mode, o.sent, o.said, o.hushed, Rst);
    assert RequestBytes(more) == RequestBytes(o.sent) && Requesting(more) == Requesting(o.sent);
    assert forall m :: m in more && !m.Rst? ==> m in o.sent;
  }

  lemma BackedChunk(o: Stream, data: Bytes, ok: bool)
    requires Backed(o) && o.Can(RelayChunk(data, ok))
    ensures Backed(o.Do(RelayChunk(data, ok)))
  {
    RequestingAppend(o.sent, ReqData(data));
    RequestBytesAppend(o.sent, ReqData(data));
    EchoesAside(o.mode, o.sent, o.said, o.hushed, ReqData(data));
  }

  lemma BackedMessage(o: Stream, m: WsMessage, ok: bool)
    requires Backed(o) && o.Can(RelayMessage(m, ok))
    ensures Backed(o.Do(RelayMessage(m, ok)))
  {
    if ok && Relays(o.mode, m) {
      BackedFrame(o, m);
    } else {
      EchoesUnsent(o.mode, o.sent, o.said, m);
    }
  }

  lemma BackedFrame(o: Stream, m: WsMessage)
    requires Backed(o) && o.Can(RelayMessage(m, true)) && Relays(o.mode, m)
    ensures Backed(o.Do(RelayMessage(m, true)))
  {
    var f := WsC2A(Wrapped(o.mode, m));
    EchoesFrame(o.mode, o.sent, o.said, m, f);
    RequestingAppend(o.sent, f);
    RequestBytesAppend(o.sent, f);
    assert RequestBytes(o.sent + [f]) == RequestBytes(o.sent) + [];
  }

  lemma BackedQueue(o: Stream, act: Act)
    requires Backed(o) && o.Can(act) && IsQueueAct(act)
    ensures Backed(o.Do(act))
  {
    QueueKeeps(o, act);
    assert o.taken != [] ==> o.Do(act).taken[0] == o.taken[0];
  }

  lemma BackedAct(o: Stream, act: Act)
    requires Backed(o) && o.Can(act)
    ensures Backed(o.Do(act))
  {
    if act.Send? {
      BackedSend(o, act.m);
    } else if act.RelayChunk? {
      BackedChunk(o, act.data, act.ok);
    } else if act.RelayMessage? {
      BackedMessage(o, act.said, act.ok);
    } else if act.HandlerReset? || act.WatcherReset? || act.EmitReset? {
      BackedReset(o);
    } else if IsQueueAct(act) {
      BackedQueue(o, act);
    }
  }

  lemma ScreenedSaid(o: Stream, m: Message)
    requires Screened(o) && !NextRequest(Requesting(o.sent), m).Illegal? && (m.ReqStart? ==> !o.left)
    ensures Screened(o.(sent := o.sent + [m]))
  {
    RequestingAppend(o.sent, m);
  }

  lemma ScreenedReset(o: Stream)
    requires Screened(o)
    ensures Screened(o.(sent := o.sent + [Rst], left := true))
  {
    RequestingAppend(o.sent, Rst);
    assert (o.sent + [Rst])[|o.sent|] == Rst;
  }

  lemma ScreenedTalk(o: Stream, act: Act)
    requires Screened(o) && o.Can(act) && !IsQueueAct(act) && !Requesting(o.sent).Illegal?
    ensures Screened(o.Do(act))
  {
    if act.HandlerReset? {
      ScreenedReset(o);
    } else if act.Leave? {
      assert o.Do(act) == o.(left := true);
    } else if act.RelayChunk? && !act.ok {
      assert !Requesting(o.sent).Relay? && !Requesting(o.sent).Idle?;
    } else {
      ScreenedOther(o, act);
    }
  }

  lemma ScreenedOther(o: Stream, act: Act)
    requires Screened(o) && o.Can(act) && !IsQueueAct(act) && !Requesting(o.sent).Illegal?
    requires !act.HandlerReset? && !act.Leave? && (act.RelayChunk? ==> act.ok)
    ensures Screened(o.Do(act))
  {
    SaysItsSpeech(o, act);
    TalkKeeps(o, act);
    if o.Says(act) != [] {
      SaysLegally(o, act);
      StartsBeforeLeaving(o, act);
      ScreenedSaid(o, o.Says(act)[0].msg);
    }
    LeftOnlyByLeaving(o, act);
    ScreenedSame(o, o.Do(act));
  }

  lemma LeftOnlyByLeaving(o: Stream, act: Act)
    requires o.Can(act) && !act.HandlerReset? && !act.Leave? && (act.RelayChunk? ==> act.ok)
    ensures o.Do(act).left == o.left
  {
  }

  lemma StartsBeforeLeaving(o: Stream, act: Act)
    requires o.Can(act) && o.Says(act) != [] && !act.HandlerReset? && (act.RelayChunk? ==> act.ok)
    ensures o.Says(act)[0].msg.ReqStart? ==> !o.left
  {
  }

  /** What the screening looks at. */
  lemma ScreenedSame(o: Stream, p: Stream)
    requires p.taken == o.taken && p.once == o.once && p.mode == o.mode && p.left == o.left
    requires Screened(o.(sent := p.sent))
    ensures Screened(p)
  {
  }

  lemma ScreenedQueue(o: Stream, act: Act)
    requires Screened(o) && o.Can(act) && IsQueueAct(act)
    ensures Screened(o.Do(act))
  {
    QueueKeeps(o, act);
  }

  lemma ScreenedAct(o: Stream, act: Act)
    requires Screened(o) && o.Can(act) && !Requesting(o.sent).Illegal?
    ensures Screened(o.Do(act))
  {
    if IsQueueAct(act) { ScreenedQueue(o, act); } else { ScreenedTalk(o, act); }
  }

  lemma BackedStep(s: State, l: Label)
    requires Enabled(s, l) && AllBacked(s) && Legal(s)
    ensures AllBacked(Apply(s, l))
  {
    var t := Apply(s, l);
    forall r | 0 <= r < |t.objs| ensures Backed(t.objs[r]) && Screened(t.objs[r]) {
      if l.On? {
        BackedAct(s.objs[l.r], l.act);
        ScreenedAct(s.objs[l.r], l.act);
      } else if r < |s.objs| && !l.OpenStream? {
        SilentStep(s, l, r);
      }
    }
  }

  lemma GoodStep(s: State, l: Label)
    requires Good(s) && Enabled(s, l)
    ensures Good(Apply(s, l))
  {
    WfStep(s, l);
    IdsStep(s, l);
    SegmentStep(s, l);
    WireStep(s, l);
    KnownIdsStep(s, l);
    BackedStep(s, l);
    if |Apply(s, l).objs| <= PERIOD { SentStep(s, l); }
  }
}
