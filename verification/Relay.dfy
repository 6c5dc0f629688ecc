/** What the tunnel leaves of relayed WebSocket messages, and of the bytes of raw and TCP relays. */
module Relay {
  import opened Messages
  import opened Scripts
  import opened WsMessages
  import opened RelayLoops
  import G = GatewayMux
  import GLane = GatewayLane
  import GRuns = GatewayRuns
  import A = AgentMux
  import ALife = AgentLife
  import ARuns = AgentRuns
  import GLife = GatewayLife
  import opened Tunnel
  import opened Options

  /** What the frames `part` make a relay pass on is a beginning of the messages `said` on the other
      side, control messages apart, and of their bytes; in raw mode of the bytes alone. */
  ghost predicate Arrives(mode: Mode, part: seq<Message>, said: seq<WsMessage>) {
    if mode.Framed? then
      Received(part) <= DataOnly(said) && BytesOf(Received(part)) <= BytesOf(DataOnly(said))
    else
      RawReceived(part) <= BytesOf(said)
  }

  lemma ArrivesPart(mode: Mode, part: seq<Message>, all: seq<Message>, said: seq<WsMessage>, stopped: bool)
    requires part <= all && Echoes(mode, all, said, stopped)
    ensures Arrives(mode, part, said)
  {
    ReceivedIsCarried(part);
    CarriedPrefix(part, all);
    if mode.Framed? { BytesOfPrefix(Received(part), DataOnly(said)); }
  }

  /** Towards the target: what the agent's relay passes on, up to where it closes the stream itself,
      is a beginning of what the client said, types and boundaries kept; to a TCP target its bytes
      are a beginning of the client's bytes, and on a raw stream the bytes are those of the client. */
  lemma ClientMessagesArrive(config: G.Config, tcpTarget: bool, ls: seq<Label>, s: State, o: nat)
    returns (r: nat)
    requires Reaches(config, tcpTarget, ls, s) && |s.g.objs| <= GLife.PERIOD && o < |s.a.objs|
    requires s.a.objs[o].kind.Ws?
    ensures r < |s.g.objs| && s.g.objs[r].id == s.a.objs[o].id
    ensures Arrives(s.g.objs[r].mode, s.a.objs[o].Heard(), s.g.objs[r].said)
  {
    GoodRun(config, tcpTarget, ls);
    r := DownwardChannel(config, tcpTarget, ls, s, o);
    var g := s.g.objs[r];
    assert GRuns.Backed(g);
    ArrivesPart(g.mode, s.a.objs[o].Heard(), g.sent, g.said, g.hushed);
  }

  /** Towards the client: what it got from frames queued before the stream was closed is a beginning
      of what the target said to the agent's relay, in the mode that relay reported; and so is all it
      got, unless the stream was closed on the gateway's side and its handler went on taking frames. */
  lemma TargetMessagesArrive(config: G.Config, tcpTarget: bool, ls: seq<Label>, s: State, r: nat, o: nat)
    requires Reaches(config, tcpTarget, ls, s) && |s.g.objs| <= GLife.PERIOD
    requires r < |s.g.objs| && o < |s.a.objs| && s.a.objs[o].Dispatched() && s.a.objs[o].id == s.g.objs[r].id
    ensures Arrives(s.a.objs[o].mode, s.g.objs[r].Heard(), s.a.objs[o].said)
    ensures !GLane.ClosedLocally(s.g.objs[r]) || |s.g.objs[r].taken| <= s.g.objs[r].acceptedOpen ==>
              Arrives(s.a.objs[o].mode, s.g.objs[r].taken, s.a.objs[o].said)
  {
    GoodRun(config, tcpTarget, ls);
    UpwardChannel(config, tcpTarget, ls, s, r);
    AtMostOneDispatch(config, tcpTarget, ls, s, o);
    var x, heard := s.a.objs[o], For(s.a.outbox, s.g.objs[r].id);
    assert ALife.ObjectOk(s.a, o);
    CarriedSpoken(heard);
    ArrivesPart(x.mode, s.g.objs[r].Heard(), heard, x.said, x.hushed);
    if !GLane.ClosedLocally(s.g.objs[r]) { ArrivesPart(x.mode, s.g.objs[r].taken, heard, x.said, x.hushed); }
  }

  /** What an agent reads from a TCP target are chunks, all of them relayed. */
  ghost predicate AllBinary(said: seq<WsMessage>) {
    forall m :: m in said ==> m.opcode == BINARY && m.data != []
  }

  lemma {:induction false} TcpIsRelayedWhole(said: seq<WsMessage>)
    requires AllBinary(said)
    ensures DataOnly(said) == said
  {
    if said != [] {
      var n := |said| - 1;
      assert said == said[..n] + [said[n]];
      TcpIsRelayedWhole(said[..n]);
    }
  }

  lemma ReadFromTcp(s: A.State, l: A.Label, r: nat)
    requires ALife.Wf(s) && A.Enabled(s, l) && s.tcpTarget && r < |s.objs| && AllBinary(s.objs[r].said)
    ensures r < |A.Apply(s, l).objs| && AllBinary(A.Apply(s, l).objs[r].said)
  {
    if l.Accept? {
      ALife.AcceptView(s, l.p, r);
    } else if l.On? {
      if l.r == r { ReadByAct(s.objs[r], l.act); }
    } else {
      ALife.QuietStep(s, l, r);
    }
  }

  lemma ReadByAct(o: A.Stream, act: A.Act)
    requires o.Can(act) && AllBinary(o.said)
    requires act.RelayMessage? ==> act.said.opcode == BINARY && act.said.data != []
    ensures AllBinary(o.Do(act).said)
  {
    if ALife.Consumes(act) {
      ALife.ConsumeFacts(o, act);
    } else if !ALife.Utters(act) {
      ALife.SilentFacts(o, act);
    }
  }

  ghost predicate ChunksOnly(s: A.State) {
    s.tcpTarget ==> forall r :: 0 <= r < |s.objs| ==> AllBinary(s.objs[r].said)
  }

  lemma ChunksOnlyStep(s: A.State, l: A.Label)
    requires ARuns.Good(s) && A.Enabled(s, l) && ChunksOnly(s)
    ensures ChunksOnly(A.Apply(s, l)) && A.Apply(s, l).tcpTarget == s.tcpTarget
  {
    var t := A.Apply(s, l);
    if s.tcpTarget {
      forall r | 0 <= r < |t.objs| ensures AllBinary(t.objs[r].said) {
        if r < |s.objs| { ReadFromTcp(s, l, r); }
      }
    }
  }

  /** In every run with a TCP target, all that is read from it is relayed: so the bytes the client
      gets, a beginning of those of the data messages, are a beginning of the bytes read. */
  lemma {:induction false} TcpReadsChunks(tcpTarget: bool, ls: seq<A.Label>)
    requires A.After(A.Init(tcpTarget), ls).Some?
    ensures var s := A.After(A.Init(tcpTarget), ls).value;
            && ChunksOnly(s) && s.tcpTarget == tcpTarget
            && (tcpTarget ==> forall r :: 0 <= r < |s.objs| ==> DataOnly(s.objs[r].said) == s.objs[r].said)
  {
    if ls == [] {
    } else {
      var n := |ls| - 1;
      TcpReadsChunks(tcpTarget, ls[..n]);
      ARuns.GoodRun(tcpTarget, ls[..n]);
      ChunksOnlyStep(A.After(A.Init(tcpTarget), ls[..n]).value, ls[n]);
      WholeEverywhere(A.After(A.Init(tcpTarget), ls).value);
    }
  }

  lemma WholeEverywhere(s: A.State)
    requires ChunksOnly(s)
    ensures s.tcpTarget ==> forall r :: 0 <= r < |s.objs| ==> DataOnly(s.objs[r].said) == s.objs[r].said
  {
    if s.tcpTarget {
      forall r | 0 <= r < |s.objs| ensures DataOnly(s.objs[r].said) == s.objs[r].said {
        TcpIsRelayedWhole(s.objs[r].said);
      }
    }
  }

  // ----- no relaying across modes -----

  lemma HeardFor(ps: seq<Packet>, qs: seq<Packet>, id: nat, m: Message)
    requires ps <= qs && m in For(ps, id)
    ensures m in For(qs, id)
  {
    ForPrefix(ps, qs, id);
    assert For(ps, id) == For(qs, id)[..|For(ps, id)|];
  }

  /** What a gateway handler took, whoever closed its stream, the agent sent under its id. */
  lemma TakenWasSent(config: G.Config, tcpTarget: bool, ls: seq<Label>, s: State, r: nat, m: Message)
    requires Reaches(config, tcpTarget, ls, s) && r < |s.g.objs| && m in s.g.objs[r].taken
    ensures m in For(s.a.outbox, s.g.objs[r].id)
  {
    GoodRun(config, tcpTarget, ls);
    var gls, als := Ends(config, tcpTarget, ls);
    var o := s.g.objs[r];
    GLane.DrawnHolds(config, gls, r);
    TakenWasOffered(s.g, r, m);
    assert GLife.SegmentAt(s.g, r);
    StretchHas(For(s.g.inbox, o.id), o.base, o.offered, m);
    HeardFor(s.g.inbox, s.a.outbox, o.id, m);
  }

  lemma TakenWasOffered(s: G.State, r: nat, m: Message)
    requires r < |s.objs| && GLane.Drawn(GLane.View(s, r)) && m in s.objs[r].taken
    ensures m in s.objs[r].offered
  {
    assert m in GLane.View(s, r).o.Accepted();
  }

  lemma StretchHas(all: seq<Message>, base: nat, part: seq<Message>, m: Message)
    requires Stretch(all, base, part) && m in part
    ensures m in all
  {
    assert m in all[base..base + |part|];
  }

  /** The gateway relays for a WebSocket client only once its agent has reported the mode expected. */
  predicate RelaysToClient(o: G.Stream) { o.Opened() }

  predicate RelaysToAgent(o: G.Stream) { exists m :: m in o.sent && (m.WsC2A? || m.WsClose?) }

  /** In every run, whatever the agent is: once a byte has been relayed either way, one handler at
      the agent serves the stream, and the relay mode it reported, the only one it ever reported, is
      the one the gateway settled on for the connection. */
  lemma NothingRelayedAcrossModes(config: G.Config, tcpTarget: bool, ls: seq<Label>, s: State, r: nat)
    returns (o: nat)
    requires Reaches(config, tcpTarget, ls, s) && |s.g.objs| <= GLife.PERIOD && r < |s.g.objs|
    requires RelaysToClient(s.g.objs[r]) || RelaysToAgent(s.g.objs[r])
    ensures o < |s.a.objs| && s.a.objs[o].kind.Ws? && s.a.objs[o].id == s.g.objs[r].id
    ensures WsOpenOK(s.g.objs[r].mode) in s.a.objs[o].sent
    ensures forall mode :: WsOpenOK(mode) in s.a.objs[o].sent ==> mode == s.g.objs[r].mode
    ensures forall q :: 0 <= q < |s.a.objs| && s.a.objs[q].Dispatched() && s.a.objs[q].id == s.g.objs[r].id ==> q == o
  {
    GoodRun(config, tcpTarget, ls);
    AgentUnique(s);
    var g := s.g.objs[r];
    assert GRuns.Backed(g) && g.Opened();
    TakenWasSent(config, tcpTarget, ls, s, r, g.taken[0]);
    SpokenHas(For(s.a.outbox, g.id), WsOpenOK(g.mode));
    assert ARuns.AnswerAt(s.a, g.id);
    o :| 0 <= o < |s.a.objs| && s.a.objs[o].id == g.id && s.a.objs[o].Dispatched();
    assert ALife.ObjectOk(s.a, o);
    OpenOKRelays(s.a.objs[o].sent, g.mode);
    forall mode | WsOpenOK(mode) in s.a.objs[o].sent ensures mode == g.mode {
      OneOpenOK(s.a.objs[o].sent, mode, g.mode);
    }
  }

  /** In every run, whatever the agent is: after an answer other than the expected mode the handler
      receives nothing more and relays nothing either way, and when it has left, it has sent a reset
      or found its stream closed. */
  lemma MismatchIsReset(config: G.Config, tcpTarget: bool, ls: seq<Label>, s: State, r: nat)
    requires Reaches(config, tcpTarget, ls, s) && r < |s.g.objs| && s.g.objs[r].Mismatched()
    ensures !RelaysToClient(s.g.objs[r]) && !RelaysToAgent(s.g.objs[r]) && |s.g.objs[r].taken| == 1
    ensures s.g.objs[r].left ==> Rst in s.g.objs[r].sent || s.g.objs[r].Closed()
  {
    GoodRun(config, tcpTarget, ls);
    assert GRuns.Backed(s.g.objs[r]) && GRuns.Screened(s.g.objs[r]);
  }

  /** The mode a stream expects is the one its connection was set up with. */
  lemma {:induction false} ModeIsConfigured(config: G.Config, ls: seq<G.Label>)
    requires G.After(G.Init(config), ls).Some?
    ensures var s := G.After(G.Init(config), ls).value;
            s.config == config && forall r :: 0 <= r < |s.objs| ==> s.objs[r].mode == config.mode
  {
    if ls == [] {
    } else {
      var n := |ls| - 1;
      ModeIsConfigured(config, ls[..n]);
      ModeKept(G.After(G.Init(config), ls[..n]).value, ls[n]);
    }
  }

  lemma ModeKept(s: G.State, l: G.Label)
    requires G.Enabled(s, l) && forall r :: 0 <= r < |s.objs| ==> s.objs[r].mode == s.config.mode
    ensures var t := G.Apply(s, l);
            t.config == s.config && forall r :: 0 <= r < |t.objs| ==> t.objs[r].mode == s.config.mode
  {
    if l.On? {
      if G.IsQueueAct(l.act) { G.QueueKeeps(s.objs[l.r], l.act); } else { G.TalkKeeps(s.objs[l.r], l.act); }
    } else if !l.OpenStream? {
      forall r | 0 <= r < |s.objs| ensures G.Apply(s, l).objs[r].mode == s.config.mode { GRuns.SilentStep(s, l, r); }
    }
  }
}
