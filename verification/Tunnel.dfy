/** One tunnel: the two ends joined by two ordered lossless frame queues that may be cut, and
    what survives the trip from end to end in every interleaving of all streams. */
module Tunnel {
  import opened Messages
  import opened Options
  import opened Scripts
  import G = GatewayMux
  import GLane = GatewayLane
  import GLife = GatewayLife
  import GRuns = GatewayRuns
  import A = AgentMux
  import ALife = AgentLife
  import ARuns = AgentRuns

  /** A frame in flight is one that a side has written and the other has not yet read; cutting
      the tunnel is reading no more. */
  datatype State = State(g: G.State, a: A.State)

  datatype Label = Gateway(gl: G.Label) | Agent(al: A.Label)

  ghost predicate Enabled(s: State, l: Label) {
    match l
    case Gateway(gl) =>
      && G.Enabled(s.g, gl)
      && (gl.Lookup? ==> |s.g.inbox| < |s.a.outbox| && gl.p == s.a.outbox[|s.g.inbox|])
    case Agent(al) =>
      && A.Enabled(s.a, al)
      && (al.Accept? ==> |s.a.inbox| < |s.g.outbox| && al.p == s.g.outbox[|s.a.inbox|])
  }

  ghost function Apply(s: State, l: Label): State
    requires Enabled(s, l)
  {
    match l
    case Gateway(gl) => s.(g := G.Apply(s.g, gl))
    case Agent(al) => s.(a := A.Apply(s.a, al))
  }

  ghost function Init(config: G.Config, tcpTarget: bool): State {
    State(G.Init(config), A.Init(tcpTarget))
  }

  ghost function After(s: State, ls: seq<Label>): Option<State> {
    if ls == [] then Some(s)
    else
      match After(s, ls[..|ls| - 1])
      case None => None
      case Some(m) => if Enabled(m, ls[|ls| - 1]) then Some(Apply(m, ls[|ls| - 1])) else None
  }

  /** A run of the tunnel is a run of the gateway's end and a run of the agent's end. */
  lemma {:induction false} Ends(config: G.Config, tcpTarget: bool, ls: seq<Label>)
    returns (gls: seq<G.Label>, als: seq<A.Label>)
    requires After(Init(config, tcpTarget), ls).Some?
    ensures G.After(G.Init(config), gls) == Some(After(Init(config, tcpTarget), ls).value.g)
    ensures A.After(A.Init(tcpTarget), als) == Some(After(Init(config, tcpTarget), ls).value.a)
  {
    if ls == [] {
      gls, als := [], [];
    } else {
      var n := |ls| - 1;
      gls, als := Ends(config, tcpTarget, ls[..n]);
      match ls[n]
      case Gateway(gl) =>
        assert (gls + [gl])[..|gls|] == gls;
        gls := gls + [gl];
      case Agent(al) =>
        assert (als + [al])[..|als|] == als;
        als := als + [al];
    }
  }

  // ----- the invariant of the whole -----

  ghost predicate Wired(s: State) {
    s.g.inbox <= s.a.outbox && s.a.inbox <= s.g.outbox
  }

  /** Until ids repeat, a stream misses none of the frames sent under its id. */
  ghost predicate FromTheStart(s: State) {
    forall r :: 0 <= r < |s.g.objs| ==> s.g.objs[r].base == 0
  }

  /** A stream's first frame is the ReqStart of its request, or the reset of a handler that gave up
      before it and sends nothing more of its own. */
  ghost predicate OpeningAt(o: G.Stream) {
    o.sent != [] ==> o.sent[0].ReqStart? || (o.left && Requesting(o.sent).Idle?)
  }

  ghost predicate Opening(s: State) {
    forall r :: 0 <= r < |s.g.objs| ==> OpeningAt(s.g.objs[r]) && GLane.Drawn(GLane.View(s.g, r))
  }

  ghost predicate Good(s: State) {
    && Wired(s) && GRuns.Good(s.g) && ARuns.Good(s.a)
    && (|s.g.objs| <= GLife.PERIOD ==> FromTheStart(s) && Opening(s))
  }

  lemma HeardFrom(ps: seq<Packet>, id: nat)
    requires For(ps, id) != []
    ensures exists p :: p in ps && p.stream == id
  {
    if forall p :: p in ps ==> p.stream != id { ForAbsent(ps, id); }
  }

  /** The agent speaks only under ids that the gateway has opened streams with. */
  lemma AgentSpeaksWhenAsked(s: State, p: Packet) returns (r: nat)
    requires Wired(s) && GRuns.Good(s.g) && ARuns.Good(s.a) && p in s.a.outbox
    ensures r < |s.g.objs| && s.g.objs[r].id == p.stream
  {
    var o :| 0 <= o < |s.a.objs| && s.a.objs[o].id == p.stream;
    assert ALife.ObjectOk(s.a, o);
    r := OpenedFor(s, p.stream);
  }

  lemma OpenedFor(s: State, id: nat) returns (r: nat)
    requires Wired(s) && GRuns.KnownIds(s.g) && For(s.a.inbox, id) != []
    ensures r < |s.g.objs| && s.g.objs[r].id == id
  {
    HeardFrom(s.a.inbox, id);
    var q :| q in s.a.inbox && q.stream == id;
    assert q in s.g.outbox;
    r :| 0 <= r < |s.g.objs| && s.g.objs[r].id == q.stream;
  }

  lemma NewIdUnheard(s: State)
    requires Good(s) && G.Enabled(s.g, G.OpenStream) && |s.g.objs| < GLife.PERIOD
    ensures For(s.g.inbox, G.NextId(s.g.counter)) == []
  {
    var id := G.NextId(s.g.counter);
    forall p | p in s.g.inbox ensures p.stream != id {
      var r := AgentSpeaksWhenAsked(s, p);
      GLife.SmallIdsDiffer(s.g, r, |s.g.objs|);
    }
    ForAbsent(s.g.inbox, id);
  }

  lemma BaseKept(s: G.State, l: G.Label, r: nat)
    requires G.Wf(s) && G.Enabled(s, l) && r < |s.objs|
    ensures r < |G.Apply(s, l).objs| && G.Apply(s, l).objs[r].base == s.objs[r].base
  {
    if l.Lookup? { GLife.LookupKeeps(s, l.p, r); } else { GLife.SegmentKept(s, l, r); }
  }

  lemma FromTheStartStep(s: State, gl: G.Label)
    requires Good(s) && Enabled(s, Gateway(gl)) && |G.Apply(s.g, gl).objs| <= GLife.PERIOD
    ensures FromTheStart(Apply(s, Gateway(gl)))
  {
    var t := G.Apply(s.g, gl);
    forall r | 0 <= r < |t.objs| ensures t.objs[r].base == 0 {
      if r < |s.g.objs| {
        BaseKept(s.g, gl, r);
      } else {
        NewIdUnheard(s);
      }
    }
  }

  /** The agent answers on a stream only after the gateway has sent something on it. */
  lemma AskedBeforeAnswered(s: State, r: nat)
    requires Good(s) && |s.g.objs| <= GLife.PERIOD && r < |s.g.objs| && s.g.objs[r].offered != []
    ensures s.g.objs[r].sent != []
  {
    var id := s.g.objs[r].id;
    assert GLife.SegmentAt(s.g, r);
    HeardFrom(s.g.inbox, id);
    var p :| p in s.g.inbox && p.stream == id;
    assert p in s.a.outbox;
    var o :| 0 <= o < |s.a.objs| && s.a.objs[o].id == id;
    assert ALife.ObjectOk(s.a, o);
    ForPrefix(s.a.inbox, s.g.outbox, id);
  }

  /** One more frame: the first stays the first, and only a ReqStart leaves the idle phase. */
  lemma OpeningSaid(o: G.Stream, m: Message, left: bool)
    requires OpeningAt(o) && (o.left ==> left) && !NextRequest(Requesting(o.sent), m).Illegal?
    requires if m.Rst? then o.sent != [] || left else (o.left && Requesting(o.sent).Idle? ==> !m.ReqStart?)
    ensures OpeningAt(o.(sent := o.sent + [m], left := left))
  {
    var more, phase := o.sent + [m], Requesting(o.sent);
    RequestingAppend(o.sent, m);
    if o.sent == [] {
      assert more[0] == m && phase.Idle?;
      assert m.Rst? || m.ReqStart?;
    } else if !o.sent[0].ReqStart? {
      assert m.Rst?;
      assert Requesting(more).Idle? && left;
    } else {
      assert more[0] == o.sent[0];
    }
  }

  lemma OpeningAct(o: G.Stream, act: G.Act)
    requires o.Can(act) && OpeningAt(o) && !Requesting(o.sent).Illegal? && (act.EmitReset? ==> o.sent != [])
    ensures OpeningAt(o.Do(act))
  {
    if G.IsQueueAct(act) {
      G.QueueKeeps(o, act);
    } else {
      G.TalkKeeps(o, act);
      GRuns.SaysItsSpeech(o, act);
      if o.Says(act) != [] {
        GRuns.SaysLegally(o, act);
        FirstSaid(o, act);
        OpeningSaid(o, o.Says(act)[0].msg, o.Do(act).left);
      }
    }
  }

  /** Who says a reset first has left, and who has left does not start a request. */
  lemma FirstSaid(o: G.Stream, act: G.Act)
    requires o.Can(act) && o.Says(act) != [] && (act.EmitReset? ==> o.sent != [])
    ensures o.Says(act)[0].msg.Rst? ==> o.sent != [] || o.Do(act).left
    ensures o.Says(act)[0].msg.ReqStart? ==> !o.left
  {
  }

  lemma OpeningOn(s: State, r: nat, act: G.Act)
    requires Good(s) && |s.g.objs| <= GLife.PERIOD && G.Enabled(s.g, G.On(r, act))
    ensures OpeningAt(s.g.objs[r].Do(act))
  {
    assert OpeningAt(s.g.objs[r]);
    if act.EmitReset? {
      var v := GLane.View(s.g, r);
      assert GLane.Drawn(v) && v.o.Accepted() != [];
      assert v.o.Accepted()[0] in v.o.offered;
      AskedBeforeAnswered(s, r);
    }
    OpeningAct(s.g.objs[r], act);
  }

  lemma OpeningStep(s: State, gl: G.Label)
    requires Good(s) && Enabled(s, Gateway(gl)) && |G.Apply(s.g, gl).objs| <= GLife.PERIOD
    ensures Opening(Apply(s, Gateway(gl)))
  {
    var t := G.Apply(s.g, gl);
    GLife.ObjectsOnlyGrow(s.g, gl);
    forall r | 0 <= r < |t.objs| ensures OpeningAt(t.objs[r]) && GLane.Drawn(GLane.View(t, r)) {
      if r < |s.g.objs| {
        OpeningKept(s, gl, r);
        DrawnStays(s.g, gl, r);
      } else {
        assert t.objs[r].sent == [];
      }
    }
  }

  lemma OpeningKept(s: State, gl: G.Label, r: nat)
    requires Good(s) && Enabled(s, Gateway(gl)) && |s.g.objs| <= GLife.PERIOD && r < |s.g.objs|
    ensures r < |G.Apply(s.g, gl).objs| && OpeningAt(G.Apply(s.g, gl).objs[r])
  {
    assert OpeningAt(s.g.objs[r]);
    var t := G.Apply(s.g, gl);
    if gl.On? {
      if gl.r == r { OpeningOn(s, r, gl.act); } else { assert t.objs[r] == s.g.objs[r]; }
    } else if gl.OpenStream? {
      assert t.objs[r] == s.g.objs[r];
    } else {
      GRuns.SilentStep(s.g, gl, r);
      assert t.objs[r].sent == s.g.objs[r].sent && t.objs[r].left == s.g.objs[r].left;
    }
  }

  lemma DrawnStays(s: G.State, gl: G.Label, r: nat)
    requires G.Wf(s) && G.Enabled(s, gl) && r < |s.objs| && GLane.Drawn(GLane.View(s, r))
    ensures r < |G.Apply(s, gl).objs| && GLane.Drawn(GLane.View(G.Apply(s, gl), r))
  {
    GLane.MuxRefinesLane(s, gl, r);
    match GLane.Seen(s, gl, r)
    case None =>
    case Some(l) => GLane.DrawnStep(GLane.View(s, r), l);
  }

  lemma InboxStep(s: State, l: Label)
    requires Enabled(s, l) && Wired(s) && GRuns.Legal(s.g)
    ensures Wired(Apply(s, l))
  {
    match l
    case Gateway(gl) => GRuns.WireStep(s.g, gl);
    case Agent(al) => ARuns.OutboxStep(s.a, al);
  }

  lemma GoodStep(s: State, l: Label)
    requires Good(s) && Enabled(s, l)
    ensures Good(Apply(s, l))
  {
    InboxStep(s, l);
    match l
    case Gateway(gl) =>
      GRuns.GoodStep(s.g, gl);
      if |G.Apply(s.g, gl).objs| <= GLife.PERIOD {
        GLife.ObjectsOnlyGrow(s.g, gl);
        FromTheStartStep(s, gl);
        OpeningStep(s, gl);
      }
    case Agent(al) => ARuns.GoodStep(s.a, al);
  }

  lemma {:induction false} GoodRun(config: G.Config, tcpTarget: bool, ls: seq<Label>)
    requires After(Init(config, tcpTarget), ls).Some?
    ensures Good(After(Init(config, tcpTarget), ls).value)
  {
    if ls == [] {
    } else {
      var n := |ls| - 1;
      GoodRun(config, tcpTarget, ls[..n]);
      GoodStep(After(Init(config, tcpTarget), ls[..n]).value, ls[n]);
    }
  }

  // ----- at most one dispatch per stream -----

  lemma DispatchesDiffer(s: State, q: nat, r: nat)
    requires Good(s) && |s.g.objs| <= GLife.PERIOD
    requires q < r < |s.a.objs| && s.a.objs[q].Dispatched() && s.a.objs[r].Dispatched()
    ensures s.a.objs[q].id != s.a.objs[r].id
  {
    if s.a.objs[q].id == s.a.objs[r].id {
      ARuns.DispatchTakesAReqStart(s.a, q, r);
      var id, i, j := s.a.objs[r].id, s.a.objs[q].base, s.a.objs[r].base;
      var g := OpenedFor(s, id);
      ForPrefix(s.a.inbox, s.g.outbox, id);
      OneReqStart(s.g.objs[g].sent, i, j);
    }
  }

  lemma AgentUnique(s: State)
    requires Good(s) && |s.g.objs| <= GLife.PERIOD
    ensures ARuns.Unique(s.a)
  {
    forall q, r | 0 <= q < |s.a.objs| && 0 <= r < |s.a.objs| && q != r
                  && s.a.objs[q].Dispatched() && s.a.objs[r].Dispatched()
      ensures s.a.objs[q].id != s.a.objs[r].id
    {
      if q < r { DispatchesDiffer(s, q, r); } else { DispatchesDiffer(s, r, q); }
    }
  }

  // ----- the results -----

  ghost predicate Reaches(config: G.Config, tcpTarget: bool, ls: seq<Label>, s: State) {
    After(Init(config, tcpTarget), ls) == Some(s)
  }

  /** At most once: among the objects the agent makes for one id, one at most is dispatched to an
      HTTP or WebSocket handler, and the others say nothing under that id but resets. */
  lemma AtMostOneDispatch(config: G.Config, tcpTarget: bool, ls: seq<Label>, s: State, r: nat)
    requires Reaches(config, tcpTarget, ls, s) && |s.g.objs| <= GLife.PERIOD
    requires r < |s.a.objs| && s.a.objs[r].Dispatched()
    ensures var o := s.a.objs[r];
            && (forall q :: 0 <= q < |s.a.objs| && q != r && s.a.objs[q].Dispatched() ==> s.a.objs[q].id != o.id)
            && Spoken(For(s.a.outbox, o.id)) == o.sent
  {
    GoodRun(config, tcpTarget, ls);
    AgentUnique(s);
    assert ARuns.AnswerAt(s.a, s.a.objs[r].id);
  }

  /** The one object dispatched for a stream starts from the stream's first frame. */
  lemma DispatchedFromTheStart(s: State, o: nat) returns (r: nat)
    requires Good(s) && |s.g.objs| <= GLife.PERIOD && o < |s.a.objs| && s.a.objs[o].Dispatched()
    ensures r < |s.g.objs| && s.g.objs[r].id == s.a.objs[o].id && s.a.objs[o].base == 0
  {
    var x := s.a.objs[o];
    ARuns.DispatchedOn(s.a, o);
    r := OpenedFor(s, x.id);
    ForPrefix(s.a.inbox, s.g.outbox, x.id);
    assert OpeningAt(s.g.objs[r]);
    assert s.g.objs[r].sent[x.base].ReqStart?;
    StartedNotIdle(s.g.objs[r].sent, x.base);
    OneReqStart(s.g.objs[r].sent, 0, x.base);
  }

  /** What a gateway handler took, of the frames queued before its stream was closed, is a beginning
      of what the agent sent under the id; that is all it took unless its client or the handler
      itself closed the stream, and even then if it had left before. */
  lemma UpwardChannel(config: G.Config, tcpTarget: bool, ls: seq<Label>, s: State, r: nat)
    requires Reaches(config, tcpTarget, ls, s) && |s.g.objs| <= GLife.PERIOD && r < |s.g.objs|
    ensures s.g.objs[r].Heard() <= For(s.a.outbox, s.g.objs[r].id)
    ensures !GLane.ClosedLocally(s.g.objs[r]) ==> s.g.objs[r].taken <= For(s.a.outbox, s.g.objs[r].id)
  {
    GoodRun(config, tcpTarget, ls);
    var gls, als := Ends(config, tcpTarget, ls);
    GLane.QueueTruncatesWithoutHoles(config, gls, r);
    var o := s.g.objs[r];
    assert GLife.SegmentAt(s.g, r);
    ForPrefix(s.g.inbox, s.a.outbox, o.id);
    assert o.taken <= o.Accepted();
    assert o.offered <= For(s.g.inbox, o.id);
  }

  /** What a dispatched object's handler and body pump took, of the frames accepted before a relay
      closed the stream itself, is a beginning of what the gateway sent, from its ReqStart on. */
  lemma DownwardChannel(config: G.Config, tcpTarget: bool, ls: seq<Label>, s: State, o: nat) returns (r: nat)
    requires Reaches(config, tcpTarget, ls, s) && |s.g.objs| <= GLife.PERIOD && o < |s.a.objs|
    requires s.a.objs[o].Dispatched()
    ensures r < |s.g.objs| && s.g.objs[r].id == s.a.objs[o].id && !Requesting(s.g.objs[r].sent).Illegal?
    ensures var heard := s.a.objs[o].Heard();
            heard <= s.g.objs[r].sent && heard != [] && heard[0].ReqStart?
  {
    GoodRun(config, tcpTarget, ls);
    var x := s.a.objs[o];
    ARuns.DispatchedOn(s.a, o);
    assert ALife.ObjectOk(s.a, o);
    r := DispatchedFromTheStart(s, o);
    ALife.HeardInOrder(s.a, o);
    OfferedWasSent(s, o, r);
  }

  lemma OfferedWasSent(s: State, o: nat, r: nat)
    requires Good(s) && |s.g.objs| <= GLife.PERIOD && o < |s.a.objs| && r < |s.g.objs|
    requires s.g.objs[r].id == s.a.objs[o].id && s.a.objs[o].base == 0
    ensures s.a.objs[o].offered <= s.g.objs[r].sent
  {
    var x := s.a.objs[o];
    assert ALife.ObjectOk(s.a, o);
    ForPrefix(s.a.inbox, s.g.outbox, x.id);
    assert x.offered <= For(s.a.inbox, x.id);
  }

  /** What a gateway handler writes out of the frames `part` is a beginning of what the agent read
      from that request's upstream response, and all of it if they make the handler leave through
      ResEnd. If no handler ran at the agent, nothing is written. */
  ghost predicate Answers(s: State, r: nat, part: seq<Message>)
    requires r < |s.g.objs|
  {
    && (forall o :: 0 <= o < |s.a.objs| && s.a.objs[o].Dispatched() && s.a.objs[o].id == s.g.objs[r].id ==>
          && Written(part) <= s.a.objs[o].read
          && (ClientAfter(part).LeftByEnd? ==> Written(part) == s.a.objs[o].read))
    && (ARuns.Silent(s.a, s.g.objs[r].id) ==> Written(part) == [] && !ClientAfter(part).LeftByEnd?)
  }

  /** The response body, for every interleaving: what was written to the client from frames queued
      before the stream was closed answers the request, and so does all that was written, unless the
      client or the handler itself closed the stream and the handler went on taking frames. */
  lemma ResponseArrivesInOrder(config: G.Config, tcpTarget: bool, ls: seq<Label>, s: State, r: nat)
    requires Reaches(config, tcpTarget, ls, s) && |s.g.objs| <= GLife.PERIOD && r < |s.g.objs|
    ensures Answers(s, r, s.g.objs[r].Heard())
    ensures !GLane.ClosedLocally(s.g.objs[r]) || |s.g.objs[r].taken| <= s.g.objs[r].acceptedOpen ==>
              Answers(s, r, s.g.objs[r].taken)
  {
    UpwardChannel(config, tcpTarget, ls, s, r);
    AnswersPart(config, tcpTarget, ls, s, r, s.g.objs[r].Heard());
    if !GLane.ClosedLocally(s.g.objs[r]) { AnswersPart(config, tcpTarget, ls, s, r, s.g.objs[r].taken); }
  }

  lemma AnswersPart(config: G.Config, tcpTarget: bool, ls: seq<Label>, s: State, r: nat, part: seq<Message>)
    requires Reaches(config, tcpTarget, ls, s) && |s.g.objs| <= GLife.PERIOD && r < |s.g.objs|
    requires part <= For(s.a.outbox, s.g.objs[r].id)
    ensures Answers(s, r, part)
  {
    GoodRun(config, tcpTarget, ls);
    AgentUnique(s);
    var id := s.g.objs[r].id;
    var heard := For(s.a.outbox, id);
    assert ARuns.AnswerAt(s.a, id);
    RespondingSpoken(heard);
    forall o | 0 <= o < |s.a.objs| && s.a.objs[o].Dispatched() && s.a.objs[o].id == id
      ensures Written(part) <= s.a.objs[o].read
      ensures ClientAfter(part).LeftByEnd? ==> Written(part) == s.a.objs[o].read
    {
      assert ALife.ObjectOk(s.a, o);
      WrittenBound(part, heard);
    }
    if ARuns.Silent(s.a, id) { WrittenBound(part, heard); }
  }

  /** What a handler writes out of the beginning of a legal response. */
  lemma WrittenBound(taken: seq<Message>, heard: seq<Message>)
    requires taken <= heard && !Responding(heard).Illegal?
    ensures Written(taken) <= ResponseBytes(heard)
    ensures ClientAfter(taken).LeftByEnd? ==> Written(taken) == ResponseBytes(heard) && Responding(heard).Ended?
  {
    WrittenIsReceived(taken);
    ResponseBytesPrefix(taken, heard);
    if ClientAfter(taken).LeftByEnd? {
      var i := LeftByEndAt(taken);
      assert taken[..i + 1] == heard[..i + 1];
      NothingAfterResEnd(heard, i);
    }
  }

  /** The request body: when the agent ends an upstream request body cleanly, it has consumed
      ReqEnd, and what it wrote is every body byte that the gateway read from its client. */
  lemma CleanRequestIsComplete(config: G.Config, tcpTarget: bool, ls: seq<Label>, s: State, o: nat)
    returns (r: nat)
    requires Reaches(config, tcpTarget, ls, s) && |s.g.objs| <= GLife.PERIOD && o < |s.a.objs|
    requires s.a.objs[o].pump == A.PipeClosed(true)
    ensures r < |s.g.objs| && s.g.objs[r].id == s.a.objs[o].id
    ensures var taken := s.a.objs[o].taken; taken != [] && taken[|taken| - 1].ReqEnd?
    ensures Requesting(s.g.objs[r].sent).Ended?
    ensures s.a.objs[o].body == RequestBytes(s.g.objs[r].sent) == s.g.objs[r].read
  {
    GoodRun(config, tcpTarget, ls);
    assert ALife.ObjectOk(s.a, o);
    r := DownwardChannel(config, tcpTarget, ls, s, o);
    WholeRequest(s.g.objs[r].sent, 0, s.a.objs[o].taken);
    assert GRuns.Backed(s.g.objs[r]);
  }

  /** Overflow, reset, teardown and a failing upstream cancel the request before its pipe closes:
      a body that has ended is all that the gateway read, or the request is cancelled and what it
      got is a beginning of that. */
  lemma EndedBodyIsCompleteOrCancelled(config: G.Config, tcpTarget: bool, ls: seq<Label>, s: State, o: nat)
    returns (r: nat)
    requires Reaches(config, tcpTarget, ls, s) && |s.g.objs| <= GLife.PERIOD && o < |s.a.objs|
    requires s.a.objs[o].pump.PipeClosed?
    ensures r < |s.g.objs| && s.g.objs[r].id == s.a.objs[o].id
    ensures s.a.objs[o].body <= s.g.objs[r].read
    ensures s.a.objs[o].body == s.g.objs[r].read || s.a.objs[o].cancelled
  {
    GoodRun(config, tcpTarget, ls);
    assert ALife.ObjectOk(s.a, o);
    var x := s.a.objs[o];
    if x.pump.clean {
      r := CleanRequestIsComplete(config, tcpTarget, ls, s, o);
    } else {
      r := DownwardChannel(config, tcpTarget, ls, s, o);
      StretchBytes(s.g.objs[r].sent, 0, x.taken);
      assert GRuns.Backed(s.g.objs[r]);
    }
  }
}
