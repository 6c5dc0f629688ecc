/** The results about the agent's end of a tunnel, over every run. */
module AgentRuns {
  import opened Messages
  import opened Options
  import opened Scripts
  import opened WsMessages
  import opened AgentMux
  import opened AgentLife

  // ----- what goes out on the wire -----

  ghost function Emitted(s: State, l: Label): seq<Packet>
    requires Enabled(s, l)
  {
    if l.ShedReset? then [Packet(s.objs[s.loop.ref].id, Rst)]
    else if l.On? then s.objs[l.r].Says(l.act)
    else []
  }

  /** The one frame of a handler's own that a step puts on the wire. */
  predicate Speaks(s: State, l: Label)
    requires l.On? ==> l.r < |s.objs|
  {
    l.On? && (l.act.Emit? || (l.act.RelayChunk? && l.act.sent) || Forwards(s.objs[l.r], l.act))
  }

  predicate Forwards(o: Stream, act: Act) { act.RelayMessage? && act.ok && Relays(o.mode, act.said) }

  function Speech(s: State, l: Label): Message
    requires (l.On? ==> l.r < |s.objs|) && Speaks(s, l)
  {
    if l.act.Emit? then l.act.m
    else if l.act.RelayChunk? then ResData(l.act.data)
    else WsA2C(Wrapped(s.objs[l.r].mode, l.act.said))
  }

  lemma OutboxStep(s: State, l: Label)
    requires Enabled(s, l)
    ensures Apply(s, l).outbox == s.outbox + Emitted(s, l)
    ensures Speaks(s, l) ==> Emitted(s, l) == [Packet(s.objs[l.r].id, Speech(s, l))] && IsSpoken(Speech(s, l))
    ensures !Speaks(s, l) ==> |Emitted(s, l)| <= 1 && forall p :: p in Emitted(s, l) ==> !IsSpoken(p.msg)
    ensures forall p :: p in Emitted(s, l) ==> exists r :: 0 <= r < |s.objs| && s.objs[r].id == p.stream
  {
    if l.ShedReset? {
      assert s.objs[s.loop.ref].id == Emitted(s, l)[0].stream;
    }
  }

  /** No two dispatched objects share an id. */
  ghost predicate Unique(s: State) {
    forall q, r | 0 <= q < |s.objs| && 0 <= r < |s.objs| && q != r
                  && s.objs[q].Dispatched() && s.objs[r].Dispatched() :: s.objs[q].id != s.objs[r].id
  }

  ghost predicate Silent(s: State, id: nat) {
    forall r :: 0 <= r < |s.objs| && s.objs[r].id == id ==> !s.objs[r].Dispatched()
  }

  /** Resets and interim responses apart, what was sent under an id is what its dispatched handler sent. */
  ghost predicate AnswerAt(s: State, id: nat) {
    && (forall r :: 0 <= r < |s.objs| && s.objs[r].id == id && s.objs[r].Dispatched() ==>
          Spoken(For(s.outbox, id)) == s.objs[r].sent)
    && (Silent(s, id) ==> Spoken(For(s.outbox, id)) == [])
  }

  lemma UniqueBefore(s: State, l: Label)
    requires Enabled(s, l) && Unique(Apply(s, l))
    ensures Unique(s)
  {
    forall q, r | 0 <= q < |s.objs| && 0 <= r < |s.objs| && q != r
                  && s.objs[q].Dispatched() && s.objs[r].Dispatched()
      ensures s.objs[q].id != s.objs[r].id
    {
      StepFollows(s, l, q);
      StepFollows(s, l, r);
    }
  }

  lemma SentOn(s: State, q: nat, act: Act)
    requires Enabled(s, On(q, act))
    ensures var o, p := s.objs[q], s.objs[q].Do(act);
            && p.id == o.id
            && p.sent == o.sent + (if Speaks(s, On(q, act)) then [Speech(s, On(q, act))] else [])
            && (p.Dispatched() == o.Dispatched() || act.First?)
            && (Speaks(s, On(q, act)) ==> o.Dispatched())
  {
    if Consumes(act) { ConsumeFacts(s.objs[q], act); } else { OtherActFacts(s.objs[q], act); }
  }

  /** Only taking the first frame dispatches an object, and only speaking adds to what it sent. */
  lemma SentStep(s: State, l: Label, r: nat)
    requires Wf(s) && Enabled(s, l) && r < |s.objs|
    ensures r < |Apply(s, l).objs| && Apply(s, l).objs[r].id == s.objs[r].id
    ensures Apply(s, l).objs[r].sent ==
            s.objs[r].sent + (if Speaks(s, l) && l.r == r then [Speech(s, l)] else [])
    ensures Apply(s, l).objs[r].Dispatched() == s.objs[r].Dispatched() || (l.On? && l.r == r && l.act.First?)
    ensures Speaks(s, l) && l.r == r ==> s.objs[r].Dispatched()
  {
    match l
    case Accept(p) => AcceptView(s, p, r);
    case On(q, act) => SentOn(s, q, act);
    case _ => QuietStep(s, l, r);
  }

  /** What a step adds to the frames heard under an id, resets and interim responses apart. */
  ghost function Added(s: State, l: Label, id: nat): seq<Message>
    requires Enabled(s, l)
  {
    if Speaks(s, l) && s.objs[l.r].id == id then [Speech(s, l)] else []
  }

  lemma HeardStep(s: State, l: Label, id: nat)
    requires Enabled(s, l)
    ensures Spoken(For(Apply(s, l).outbox, id)) == Spoken(For(s.outbox, id)) + Added(s, l, id)
  {
    OutboxStep(s, l);
    var e := Emitted(s, l);
    if |e| == 1 {
      assert e == [e[0]];
      ForAppend(s.outbox, e[0], id);
      SpokenAppend(For(s.outbox, id), e[0].msg);
      assert For(s.outbox, id) + [] == For(s.outbox, id);
      assert Spoken(For(s.outbox, id)) + [] == Spoken(For(s.outbox, id));
    } else {
      assert s.outbox + e == s.outbox;
    }
  }

  lemma SilentBefore(s: State, l: Label, id: nat)
    requires Enabled(s, l) && Silent(Apply(s, l), id)
    ensures Silent(s, id) && Added(s, l, id) == []
  {
    forall r | 0 <= r < |s.objs| && s.objs[r].id == id ensures !s.objs[r].Dispatched() {
      StepFollows(s, l, r);
    }
    if Speaks(s, l) { SentOn(s, l.r, l.act); }
  }

  lemma AnswerFor(s: State, l: Label, r: nat)
    requires Wf(s) && Enabled(s, l) && Unique(Apply(s, l)) && r < |Apply(s, l).objs|
    requires AnswerAt(s, Apply(s, l).objs[r].id) && Apply(s, l).objs[r].Dispatched()
    requires r < |s.objs| ==> Local(s.objs[r])
    ensures var o := Apply(s, l).objs[r];
            o.sent == Spoken(For(s.outbox, o.id)) + Added(s, l, o.id)
  {
    if r < |s.objs| {
      if s.objs[r].Dispatched() { AnswerContinues(s, l, r); } else { AnswerBegins(s, l, r); }
    }
  }

  lemma AnswerStep(s: State, l: Label, id: nat)
    requires Wf(s) && Enabled(s, l) && Unique(Apply(s, l)) && AnswerAt(s, id)
    requires forall r :: 0 <= r < |s.objs| ==> Local(s.objs[r])
    ensures AnswerAt(Apply(s, l), id)
  {
    var t := Apply(s, l);
    HeardStep(s, l, id);
    forall r | 0 <= r < |t.objs| && t.objs[r].id == id && t.objs[r].Dispatched()
      ensures Spoken(For(t.outbox, id)) == t.objs[r].sent
    {
      AnswerFor(s, l, r);
    }
    if Silent(t, id) { SilentBefore(s, l, id); }
  }

  lemma AnswerContinues(s: State, l: Label, r: nat)
    requires Wf(s) && Enabled(s, l) && Unique(Apply(s, l)) && r < |s.objs| && s.objs[r].Dispatched()
    ensures r < |Apply(s, l).objs| && Apply(s, l).objs[r].sent == s.objs[r].sent + Added(s, l, s.objs[r].id)
    ensures Apply(s, l).objs[r].id == s.objs[r].id
  {
    SentStep(s, l, r);
    if Speaks(s, l) && l.r != r {
      SentStep(s, l, l.r);
      UniqueBefore(s, l);
    }
  }

  lemma AnswerBegins(s: State, l: Label, r: nat)
    requires Wf(s) && Enabled(s, l) && Unique(Apply(s, l)) && r < |s.objs| && !s.objs[r].Dispatched()
    requires Local(s.objs[r]) && r < |Apply(s, l).objs| && Apply(s, l).objs[r].Dispatched()
    ensures Silent(s, s.objs[r].id) && Apply(s, l).objs[r].sent == [] && Added(s, l, s.objs[r].id) == []
    ensures Apply(s, l).objs[r].id == s.objs[r].id
  {
    var t := Apply(s, l);
    SentStep(s, l, r);
    forall q | 0 <= q < |s.objs| && s.objs[q].id == s.objs[r].id ensures !s.objs[q].Dispatched() {
      StepFollows(s, l, q);
    }
  }

  // ----- every run -----

  /** Nothing is sent under an id that no object was made for. */
  ghost predicate KnownIds(s: State) {
    forall p :: p in s.outbox ==> exists r :: 0 <= r < |s.objs| && s.objs[r].id == p.stream
  }

  ghost predicate Good(s: State) {
    && Wf(s) && KnownIds(s)
    && (forall r :: 0 <= r < |s.objs| ==> ObjectOk(s, r))
    && (forall r :: 0 <= r < |s.objs| ==> Kept(s, r))
    && (Unique(s) ==> forall id: nat :: AnswerAt(s, id))
  }

  lemma KnownIdsStep(s: State, l: Label)
    requires KnownIds(s) && Enabled(s, l)
    ensures KnownIds(Apply(s, l))
  {
    var t := Apply(s, l);
    OutboxStep(s, l);
    forall p | p in t.outbox ensures exists r :: 0 <= r < |t.objs| && t.objs[r].id == p.stream {
      var r :| 0 <= r < |s.objs| && s.objs[r].id == p.stream;
      StepFollows(s, l, r);
      assert t.objs[r].id == p.stream;
    }
  }

  lemma ObjectsStep(s: State, l: Label)
    requires Good(s) && Enabled(s, l)
    ensures forall r :: 0 <= r < |Apply(s, l).objs| ==> ObjectOk(Apply(s, l), r) && Kept(Apply(s, l), r)
  {
    var t := Apply(s, l);
    forall r | 0 <= r < |t.objs| ensures ObjectOk(t, r) && Kept(t, r) {
      if r < |s.objs| {
        assert ObjectOk(s, r) && Kept(s, r);
        ObjectStep(s, l, r);
        KeptStep(s, l, r);
      } else {
        ObjectNew(s, l.p);
      }
    }
  }

  lemma AnswersStep(s: State, l: Label)
    requires Good(s) && Enabled(s, l) && Unique(Apply(s, l))
    ensures forall id: nat :: AnswerAt(Apply(s, l), id)
  {
    UniqueBefore(s, l);
    forall r | 0 <= r < |s.objs| ensures Local(s.objs[r]) { assert ObjectOk(s, r); }
    forall id: nat ensures AnswerAt(Apply(s, l), id) {
      assert AnswerAt(s, id);
      AnswerStep(s, l, id);
    }
  }

  lemma GoodStep(s: State, l: Label)
    requires Good(s) && Enabled(s, l)
    ensures Good(Apply(s, l))
  {
    WfStep(s, l);
    KnownIdsStep(s, l);
    ObjectsStep(s, l);
    if Unique(Apply(s, l)) { AnswersStep(s, l); }
  }

  lemma {:induction false} GoodRun(tcpTarget: bool, ls: seq<Label>)
    requires After(Init(tcpTarget), ls).Some?
    ensures Good(After(Init(tcpTarget), ls).value)
  {
    if ls == [] {
    } else {
      var n := |ls| - 1;
      GoodRun(tcpTarget, ls[..n]);
      GoodStep(After(Init(tcpTarget), ls[..n]).value, ls[n]);
    }
  }

  /** Cleanup is complete: once `closeAllStreams` is through and every handler has finished, each
      stream object ever made has been closed, whichever goroutine took it out of the map. */
  lemma CleanupIsComplete(tcpTarget: bool, ls: seq<Label>)
    requires After(Init(tcpTarget), ls).Some?
    requires var s := After(Init(tcpTarget), ls).value;
             s.teardown.Swept? && forall r :: 0 <= r < |s.objs| ==> s.objs[r].handler.Gone?
    ensures var s := After(Init(tcpTarget), ls).value;
            s.streams == map[] && forall r :: 0 <= r < |s.objs| ==> s.objs[r].closed
  {
    GoodRun(tcpTarget, ls);
    var s := After(Init(tcpTarget), ls).value;
    forall r | 0 <= r < |s.objs| ensures s.objs[r].closed {
      assert Kept(s, r);
    }
  }

  /** Two dispatches under one id take two ReqStart frames read under it, in that order. */
  lemma DispatchTakesAReqStart(s: State, q: nat, r: nat)
    requires Good(s) && q < r < |s.objs| && s.objs[q].id == s.objs[r].id
    requires s.objs[q].Dispatched() && s.objs[r].Dispatched()
    ensures var all := For(s.inbox, s.objs[r].id);
            var i, j := s.objs[q].base, s.objs[r].base;
            i < j < |all| && all[i].ReqStart? && all[j].ReqStart?
  {
    DispatchedOn(s, q);
    DispatchedOn(s, r);
    assert ObjectOk(s, q);
  }

  lemma DispatchedOn(s: State, r: nat)
    requires Good(s) && r < |s.objs| && s.objs[r].Dispatched()
    ensures var o, all := s.objs[r], For(s.inbox, s.objs[r].id);
            && o.offered != [] && o.offered[0].ReqStart? && o.taken != [] && o.taken[0] == o.offered[0]
            && o.base < |all| && all[o.base] == o.offered[0]
  {
    assert ObjectOk(s, r);
    var o, all := s.objs[r], For(s.inbox, s.objs[r].id);
    assert all[o.base..o.base + |o.offered|][0] == all[o.base];
  }
}
