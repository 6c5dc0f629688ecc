/** Stream ids, the stream limit, and what closing the connection does to the streams of the
    gateway, over every run. */
module GatewayLife {
  import opened Messages
  import opened Options
  import opened Scripts
  import opened GatewayMux
  import opened GatewayLane

  /** Ids run through 1 .. 2^32 - 1 and start over: so many streams can be told apart. */
  const PERIOD: nat := 0xFFFF_FFFF

  function IdAt(k: nat): nat
    requires k >= 1
  {
    (k - 1) % 0xFFFF_FFFF + 1
  }

  lemma NextIdIs(k: nat)
    requires k >= 1
    ensures NextId(IdAt(k)) == IdAt(k + 1)
  {
  }

  /** Ids are never zero, and two streams share one only a whole number of periods apart. */
  lemma IdsRepeatOnlyAfterAPeriod(i: nat, j: nat)
    requires 1 <= i < j
    ensures 1 <= IdAt(i) <= PERIOD
    ensures IdAt(i) == IdAt(j) <==> (j - i) % 0xFFFF_FFFF == 0
  {
  }

  // ----- the invariant -----

  ghost predicate IdsInv(s: State) {
    && s.counter == (if |s.objs| == 0 then 0 else IdAt(|s.objs|))
    && forall k :: 0 <= k < |s.objs| ==> s.objs[k].id == IdAt(k + 1)
  }

  /** The frames a stream was offered are a contiguous stretch of those read with its id, and
      reach to the latest one while the stream is in the map. */
  ghost predicate SegmentAt(s: State, r: nat)
    requires r < |s.objs|
  {
    var o, all := s.objs[r], For(s.inbox, s.objs[r].id);
    && Stretch(all, o.base, o.offered)
    && (Mapped(s, r) ==> o.base + |o.offered| == |all|)
  }

  ghost predicate SegmentInv(s: State) {
    forall r :: 0 <= r < |s.objs| ==> SegmentAt(s, r)
  }

  /** Every stream whose close has not finished is in the map, or in the list the connection's
      own close is working through; after that there is none. */
  ghost predicate Registered(s: State) {
    forall r :: 0 <= r < |s.objs| ==> RegisteredAt(s, r)
  }

  lemma ActKeepsIdentity(o: Stream, act: Act)
    requires o.Can(act)
    ensures o.Do(act).id == o.id && o.Do(act).base == o.base && o.Do(act).offered == o.offered
  {
    if IsQueueAct(act) { QueueKeeps(o, act); } else { TalkKeeps(o, act); }
  }

  lemma StepKeepsIds(s: State, l: Label)
    requires Enabled(s, l) && !l.OpenStream?
    ensures |Apply(s, l).objs| == |s.objs| && Apply(s, l).counter == s.counter
    ensures forall k :: 0 <= k < |s.objs| ==> Apply(s, l).objs[k].id == s.objs[k].id
  {
    match l
    case On(r, act) => ActKeepsIdentity(s.objs[r], act);
    case _ =>
  }

  lemma IdsStep(s: State, l: Label)
    requires IdsInv(s) && Enabled(s, l)
    ensures IdsInv(Apply(s, l))
  {
    if l.OpenStream? {
      IdsAfterOpen(s);
    } else {
      StepKeepsIds(s, l);
    }
  }

  lemma IdsAfterOpen(s: State)
    requires IdsInv(s) && Enabled(s, OpenStream)
    ensures IdsInv(Apply(s, OpenStream))
  {
    if |s.objs| >= 1 { NextIdIs(|s.objs|); }
  }

  lemma SegmentStep(s: State, l: Label)
    requires Wf(s) && SegmentInv(s) && Enabled(s, l)
    ensures SegmentInv(Apply(s, l))
  {
    var t := Apply(s, l);
    forall r | 0 <= r < |t.objs| ensures SegmentAt(t, r) {
      if r < |s.objs| {
        assert SegmentAt(s, r);
        if l.Lookup? {
          SegmentLookup(s, l.p, r);
        } else {
          SegmentKept(s, l, r);
        }
      }
    }
  }

  lemma SegmentKept(s: State, l: Label, r: nat)
    requires Wf(s) && Enabled(s, l) && !l.Lookup? && r < |s.objs|
    ensures var t := Apply(s, l);
            && r < |t.objs| && t.inbox == s.inbox && (Mapped(t, r) ==> Mapped(s, r))
            && t.objs[r].id == s.objs[r].id && t.objs[r].base == s.objs[r].base
            && t.objs[r].offered == s.objs[r].offered
  {
    MuxRefinesLane(s, l, r);
    assert View(Apply(s, l), r).o == Apply(s, l).objs[r];
    assert View(Apply(s, l), r).mapped == Mapped(Apply(s, l), r);
    match Seen(s, l, r)
    case Some(LAct(act)) => ActKeepsIdentity(s.objs[r], act);
    case _ =>
  }

  lemma LookupKeeps(s: State, p: Packet, r: nat)
    requires Wf(s) && Enabled(s, Lookup(p)) && r < |s.objs|
    ensures var t := Apply(s, Lookup(p));
            |t.objs| == |s.objs| && t.objs[r].id == s.objs[r].id && t.objs[r].base == s.objs[r].base
  {
  }

  lemma SegmentLookup(s: State, p: Packet, r: nat)
    requires Wf(s) && Enabled(s, Lookup(p)) && r < |s.objs| && SegmentAt(s, r)
    ensures r < |Apply(s, Lookup(p)).objs| && SegmentAt(Apply(s, Lookup(p)), r)
  {
    var o := s.objs[r];
    var all := For(s.inbox, o.id);
    ForAppend(s.inbox, p, o.id);
    StretchKept(all, For(s.inbox + [p], o.id), o.base, o.offered);
    if p.stream in s.streams && s.streams[p.stream] == r {
      StretchGrows(all, o.base, o.offered, p.msg);
    } else {
      assert Apply(s, Lookup(p)).objs[r] == o;
    }
  }

  ghost predicate RegisteredAt(s: State, r: nat)
    requires r < |s.objs|
  {
    !s.objs[r].once.Done? ==>
      match s.closing
      case Open | Signalled => Mapped(s, r)
      case Sweeping(rest) => r in rest
      case Finished => false
  }

  /** `newStream` is about to overwrite the entry of a stream that is still in the map. */
  ghost predicate Displaces(s: State, l: Label) {
    l.OpenStream? && NextId(s.counter) in s.streams
  }

  lemma RegisteredStep(s: State, l: Label)
    requires Wf(s) && Registered(s) && Enabled(s, l) && !Displaces(s, l)
    ensures Registered(Apply(s, l))
  {
    var t := Apply(s, l);
    forall r | 0 <= r < |t.objs| ensures RegisteredAt(t, r) {
      if r < |s.objs| && !t.objs[r].once.Done? { RegisteredOf(s, l, r); }
    }
  }

  lemma RegisteredOf(s: State, l: Label, r: nat)
    requires Wf(s) && Enabled(s, l) && r < |s.objs| && Registered(s) && !Displaces(s, l)
    requires !Apply(s, l).objs[r].once.Done?
    ensures RegisteredAt(Apply(s, l), r)
  {
    assert RegisteredAt(s, r);
    if l.On? {
      assert RegisteredAt(s, l.r);
      RegisteredOn(s, l.r, l.act, r);
    } else {
      MuxRefinesLane(s, l, r);
      assert View(Apply(s, l), r).o == Apply(s, l).objs[r];
      assert View(s, r).mapped == Mapped(s, r);
    }
  }

  lemma RegisteredOn(s: State, q: nat, act: Act, r: nat)
    requires Wf(s) && Enabled(s, On(q, act)) && r < |s.objs| && RegisteredAt(s, r) && RegisteredAt(s, q)
    requires !ApplyOn(s, q, act).objs[r].once.Done?
    ensures RegisteredAt(ApplyOn(s, q, act), r)
  {
    ActKeepsIdentity(s.objs[q], act);
    DoneByForget(s.objs[q], act);
    var t := ApplyOn(s, q, act);
    assert t.objs[r].id == s.objs[r].id && t.closing == s.closing && !s.objs[r].once.Done?;
    if act.Forget? {
      assert q != r && !s.objs[q].once.Done?;
    } else {
      assert t.streams == s.streams;
    }
  }

  lemma DoneByForget(o: Stream, act: Act)
    requires o.Can(act)
    ensures o.once.Done? ==> o.Do(act).once.Done?
    ensures act.Forget? ==> o.once.Shut?
  {
    if !IsQueueAct(act) { TalkKeeps(o, act); }
  }

  lemma SmallIdsDiffer(s: State, r: nat, q: nat)
    requires IdsInv(s) && r < |s.objs| && q <= |s.objs| && r != q && r < PERIOD && q < PERIOD
    ensures IdAt(q + 1) != s.objs[r].id
    ensures q < |s.objs| ==> s.objs[q].id != s.objs[r].id
    ensures q == |s.objs| ==> NextId(s.counter) != s.objs[r].id
  {
    if |s.objs| >= 1 { NextIdIs(|s.objs|); }
    assert IdAt(r + 1) == r + 1 && IdAt(q + 1) == q + 1;
  }

  /** No stream opened in the run took an id that was still in the map. */
  ghost predicate Undisplaced(config: Config, ls: seq<Label>)
    requires After(Init(config), ls).Some?
  {
    ls == [] ||
    (Undisplaced(config, ls[..|ls| - 1])
     && !Displaces(After(Init(config), ls[..|ls| - 1]).value, ls[|ls| - 1]))
  }

  lemma {:induction false} LifeRun(config: Config, ls: seq<Label>)
    requires After(Init(config), ls).Some?
    ensures var s := After(Init(config), ls).value;
            && Wf(s) && IdsInv(s) && SegmentInv(s)
            && s.config == config && (config.maxStreams > 0 ==> |s.streams| <= config.maxStreams)
            && (Undisplaced(config, ls) ==> Registered(s))
  {
    if ls == [] {
    } else {
      var n := |ls| - 1;
      var s := After(Init(config), ls[..n]).value;
      LifeRun(config, ls[..n]);
      WfStep(s, ls[n]);
      IdsStep(s, ls[n]);
      SegmentStep(s, ls[n]);
      if Undisplaced(config, ls) { RegisteredStep(s, ls[n]); }
    }
  }

  /** Within the first 2^32 - 1 streams of a connection nothing is displaced. */
  lemma {:induction false} FirstPeriodIsUndisplaced(config: Config, ls: seq<Label>)
    requires After(Init(config), ls).Some? && |After(Init(config), ls).value.objs| <= PERIOD
    ensures Undisplaced(config, ls)
  {
    if ls == [] {
    } else {
      var n := |ls| - 1;
      var s := After(Init(config), ls[..n]).value;
      LifeRun(config, ls[..n]);
      ObjectsOnlyGrow(s, ls[n]);
      FirstPeriodIsUndisplaced(config, ls[..n]);
      if Displaces(s, ls[n]) { SmallIdsDiffer(s, s.streams[NextId(s.counter)], |s.objs|); }
    }
  }

  lemma ObjectsOnlyGrow(s: State, l: Label)
    requires Enabled(s, l)
    ensures |Apply(s, l).objs| == if l.OpenStream? then |s.objs| + 1 else |s.objs|
  {
    if !l.OpenStream? { StepKeepsIds(s, l); }
  }

  // ----- the results -----

  /** Once `closeWithErr` on the connection has finished, the map is empty and every stream ever
      returned has been closed, however many there were, if none of them displaced another. */
  lemma TeardownIsComplete(config: Config, ls: seq<Label>)
    requires After(Init(config), ls).Some? && Undisplaced(config, ls)
    requires After(Init(config), ls).value.closing.Finished?
    ensures var s := After(Init(config), ls).value;
            s.streams == map[] && forall r :: 0 <= r < |s.objs| ==> s.objs[r].once.Done?
  {
    LifeRun(config, ls);
    var s := After(Init(config), ls).value;
    forall r | 0 <= r < |s.objs| ensures s.objs[r].once.Done? {
      assert RegisteredAt(s, r);
    }
  }

  /** The condition is exact at every step: opening a stream leaves all unfinished streams where
      closing the connection will find them if and only if its id is not in the map. */
  lemma OpenIsSafeExactlyWhen(config: Config, ls: seq<Label>, s: State)
    requires After(Init(config), ls) == Some(s) && Undisplaced(config, ls) && Enabled(s, OpenStream)
    ensures Registered(Apply(s, OpenStream)) <==> NextId(s.counter) !in s.streams
  {
    LifeRun(config, ls);
    var id, t := NextId(s.counter), Apply(s, OpenStream);
    if id in s.streams {
      var r := s.streams[id];
      LaneInvHolds(config, ls, r);
      assert View(s, r).o == s.objs[r] && View(s, r).mapped;
      assert !RegisteredAt(t, r);
    } else {
      RegisteredStep(s, OpenStream);
    }
  }

  /** Once the connection has begun to close, no run opens another stream. */
  lemma {:induction false} NoStreamAfterClose(s: State, ls: seq<Label>)
    requires !s.closing.Open? && After(s, ls).Some?
    ensures !After(s, ls).value.closing.Open? && |After(s, ls).value.objs| == |s.objs|
  {
    if ls == [] {
    } else {
      NoStreamAfterClose(s, ls[..|ls| - 1]);
    }
  }

  /** The k-th stream of a connection carries the k-th id, and was offered exactly a stretch of
      the frames that arrived with that id. */
  lemma StreamsCarryTheirIds(config: Config, ls: seq<Label>, k: nat)
    requires After(Init(config), ls).Some? && k < |After(Init(config), ls).value.objs|
    ensures var s := After(Init(config), ls).value;
            s.objs[k].id == IdAt(k + 1) && SegmentAt(s, k)
  {
    LifeRun(config, ls);
  }

  /** While the connection is open and no stream displaced another, every stream not fully closed
      is found under its id, and a positive limit bounds how many there are. */
  lemma OpenStreamsAreBounded(config: Config, ls: seq<Label>)
    requires After(Init(config), ls).Some? && Undisplaced(config, ls)
    requires After(Init(config), ls).value.closing.Open?
    ensures var s := After(Init(config), ls).value;
            && (forall r :: 0 <= r < |s.objs| && !s.objs[r].once.Done? ==> Mapped(s, r))
            && (config.maxStreams > 0 ==>
                  |(set r | 0 <= r < |s.objs| && !s.objs[r].once.Done?)| <= config.maxStreams)
  {
    LifeRun(config, ls);
    LiveStreamsFitTheMap(After(Init(config), ls).value);
  }

  lemma LiveStreamsFitTheMap(s: State)
    requires Registered(s) && s.closing.Open?
    ensures forall r :: 0 <= r < |s.objs| && !s.objs[r].once.Done? ==> Mapped(s, r)
    ensures |(set r | 0 <= r < |s.objs| && !s.objs[r].once.Done?)| <= |s.streams|
  {
    var live := set r | 0 <= r < |s.objs| && !s.objs[r].once.Done?;
    forall r | 0 <= r < |s.objs| && !s.objs[r].once.Done?
      ensures Mapped(s, r) && r in s.streams.Values
    {
      assert RegisteredAt(s, r);
      assert s.streams[s.objs[r].id] == r;
    }
    SubsetSize(live, s.streams.Values);
    ValuesNoMoreThanKeys(s.streams);
  }

  lemma {:induction false} SubsetSize<T>(a: set<T>, b: set<T>)
    requires a <= b
    ensures |a| <= |b|
  {
    if a == {} {
    } else {
      var x :| x in a;
      SubsetSize(a - {x}, b - {x});
    }
  }

  lemma {:induction false} ValuesNoMoreThanKeys(m: map<nat, nat>)
    ensures |m.Values| <= |m|
    decreases |m|
  {
    if m == map[] {
      assert m.Values == {};
    } else {
      var k :| k in m;
      var rest := m - {k};
      ValuesNoMoreThanKeys(rest);
      forall v | v in m.Values ensures v in rest.Values + {m[k]} {
        var j :| j in m && m[j] == v;
        assert j != k ==> j in rest && rest[j] == v;
      }
      SubsetSize(m.Values, rest.Values + {m[k]});
      assert |rest| == |m| - 1;
    }
  }

  // ----- which drops leave the stream in reach -----

  /** A dropped frame's stream is still in the map exactly when its client or handler closed it and
      has yet to forget it, and the connection's close has not taken the map away. */
  lemma DropStaysMappedExactlyWhen(config: Config, ls: seq<Label>, s: State)
    requires After(Init(config), ls) == Some(s) && Undisplaced(config, ls) && Enabled(s, Drop)
    ensures var o := s.objs[s.loop.ref];
            Mapped(s, s.loop.ref) <==>
            ClosedLocally(o) && o.once.Shut? && (s.closing.Open? || s.closing.Signalled?)
  {
    var r := s.loop.ref;
    LifeRun(config, ls);
    LaneInvHolds(config, ls, r);
    var v := View(s, r);
    assert v.o == s.objs[r] && v.mapped == Mapped(s, r) && v.hand.Holding?;
    assert RegisteredAt(s, r);
  }

  /** And then, from every such state of every run, a hole is one frame away: any next frame for the
      stream but a copy of the first one missed is queued in its place. */
  lemma AnyLateFrameLeavesAHole(config: Config, ls: seq<Label>, s: State, p: Packet)
    requires After(Init(config), ls) == Some(s) && Enabled(s, Drop) && Mapped(s, s.loop.ref)
    requires p.stream == s.objs[s.loop.ref].id && |s.objs[s.loop.ref].rx| < RECEIVE_QUEUE_FRAMES
    ensures After(Init(config), ls + [Drop] + [Lookup(p)] + [Enqueue]).Some?
    ensures var r, t := s.loop.ref, After(Init(config), ls + [Drop] + [Lookup(p)] + [Enqueue]).value;
            && r < |t.objs| && |s.objs[r].Accepted()| < |s.objs[r].offered|
            && (t.objs[r].Accepted() <= t.objs[r].offered <==>
                s.objs[r].Accepted() <= s.objs[r].offered && p.msg == s.objs[r].offered[|s.objs[r].Accepted()|])
  {
    var r, o := s.loop.ref, s.objs[s.loop.ref];
    DrawnHolds(config, ls, r);
    assert View(s, r).o == o && View(s, r).hand.Holding?;
    AfterSnoc(Init(config), ls, Drop);
    var a := Apply(s, Drop);
    AfterSnoc(Init(config), ls + [Drop], Lookup(p));
    var b := Apply(a, Lookup(p));
    assert b.objs[r] == o.(offered := o.offered + [p.msg]) && b.loop == Delivering(r, p.msg);
    AfterSnoc(Init(config), ls + [Drop] + [Lookup(p)], Enqueue);
    assert Apply(b, Enqueue).objs[r].Accepted() == o.Accepted() + [p.msg];
    NextInOrder(o.Accepted(), o.offered, p.msg);
  }

  // ----- what one stream more does -----

  ghost predicate OneLeftOpen(s: State, n: nat) {
    && n >= 1 && |s.objs| == n && IdsInv(s) && s.config == UNLIMITED
    && s.streams == map[1 := 0] && s.objs[0] == NewStream(1, Framed, 0)
    && (forall k :: 1 <= k < n ==> s.objs[k].once.Done?)
    && s.loop.Reading? && s.closing.Open? && s.inbox == [] && s.outbox == []
  }

  /** A run that keeps the first stream open while n - 1 others come and go. */
  lemma {:induction false} Churn(n: nat) returns (ls: seq<Label>, s: State)
    requires 1 <= n <= PERIOD
    ensures After(Init(UNLIMITED), ls) == Some(s) && OneLeftOpen(s, n)
  {
    if n == 1 {
      s := Init(UNLIMITED);
      ls, s := Extend(UNLIMITED, [], s, OpenStream);
      IdsStep(Init(UNLIMITED), OpenStream);
    } else {
      ls, s := Churn(n - 1);
      var before, r := s, n - 1;
      IdsStep(s, OpenStream);
      SmallIdsDiffer(s, 0, r);
      ls, s := Extend(UNLIMITED, ls, s, OpenStream);
      assert s.objs[r] == NewStream(IdAt(n), Framed, 0);
      ls, s := Retire(ls, s, r);
      assert s.streams == map[1 := 0];
    }
  }

  lemma Retire(ls: seq<Label>, s: State, r: nat) returns (ls': seq<Label>, s': State)
    requires After(Init(UNLIMITED), ls) == Some(s) && r < |s.objs|
    requires s.objs[r] == NewStream(s.objs[r].id, s.objs[r].mode, s.objs[r].base)
    ensures After(Init(UNLIMITED), ls') == Some(s')
    ensures s' == s.(objs := s'.objs, streams := s.streams - {s.objs[r].id})
    ensures |s'.objs| == |s.objs| && s'.objs == s.objs[r := s'.objs[r]]
    ensures s'.objs[r].id == s.objs[r].id && s'.objs[r].once.Done?
  {
    ls', s' := ExtendOn(ls, s, r, Leave);
    ls', s' := ExtendOn(ls', s', r, Begin(HandlerExit));
    ls', s' := ExtendOn(ls', s', r, CloseChannel);
    ls', s' := ExtendOn(ls', s', r, Forget);
    assert s'.objs == s.objs[r := s'.objs[r]];
  }

  // ----- closing over a displaced stream -----

  /** A stream that nobody is closing, out of the map, is missed by the sweep. */
  ghost predicate Missed(s: State, r: nat) {
    && r < |s.objs| && s.objs[r].once.Fresh?
    && s.closing.Sweeping? && r !in s.closing.rest
    && forall q :: q in s.closing.rest ==> q < |s.objs|
  }

  /** Stream `q`, at the head of the sweep's list, moves on by one act of whoever closes it. */
  lemma SweepAct(config: Config, ls: seq<Label>, s: State, r: nat, l: Label, act: Act)
    returns (ls': seq<Label>, s': State)
    requires After(Init(config), ls) == Some(s) && Missed(s, r) && s.closing.rest != []
    requires var q := s.closing.rest[0];
             && q < |s.objs| && s.objs[q].Can(act)
             && ((act == Begin(AgentGone) && l == SweepBegin)
                 || (l == On(q, act) && (act.CloseChannel? || act.Forget?)))
    ensures After(Init(config), ls') == Some(s') && Missed(s', r)
    ensures s'.closing == s.closing && |s'.objs| == |s.objs|
    ensures s'.objs[s.closing.rest[0]] == s.objs[s.closing.rest[0]].Do(act)
  {
    ls', s' := Extend(config, ls, s, l);
    assert s' == ApplyOn(s, s.closing.rest[0], act);
  }

  /** One turn of the sweep, finishing the close of the stream at its head wherever that stands. */
  lemma SweepTurn(config: Config, ls: seq<Label>, s: State, r: nat) returns (ls': seq<Label>, s': State)
    requires After(Init(config), ls) == Some(s) && Missed(s, r) && s.closing.rest != []
    ensures After(Init(config), ls') == Some(s') && Missed(s', r)
    ensures s'.closing.rest == s.closing.rest[1..] && |s'.objs| == |s.objs|
  {
    var q := s.closing.rest[0];
    assert q in s.closing.rest;
    ls', s' := ls, s;
    if s'.objs[q].once.Fresh? { ls', s' := SweepAct(config, ls', s', r, SweepBegin, Begin(AgentGone)); }
    if s'.objs[q].once.Begun? { ls', s' := SweepAct(config, ls', s', r, On(q, CloseChannel), CloseChannel); }
    if s'.objs[q].once.Shut? { ls', s' := SweepAct(config, ls', s', r, On(q, Forget), Forget); }
    ls', s' := NextInSweep(config, ls', s', r);
  }

  lemma NextInSweep(config: Config, ls: seq<Label>, s: State, r: nat) returns (ls': seq<Label>, s': State)
    requires After(Init(config), ls) == Some(s) && Missed(s, r) && s.closing.rest != []
    requires s.closing.rest[0] < |s.objs| && s.objs[s.closing.rest[0]].once.Done?
    ensures After(Init(config), ls') == Some(s') && Missed(s', r)
    ensures s'.closing.rest == s.closing.rest[1..] && |s'.objs| == |s.objs|
  {
    ls', s' := Extend(config, ls, s, SweepNext);
    assert forall q :: q in s.closing.rest[1..] ==> q in s.closing.rest;
  }

  lemma {:induction false} SweepOver(config: Config, ls: seq<Label>, s: State, r: nat)
    returns (ls': seq<Label>, s': State)
    requires After(Init(config), ls) == Some(s) && Missed(s, r)
    ensures After(Init(config), ls') == Some(s')
    ensures s'.closing.Finished? && |s'.objs| == |s.objs| && s'.objs[r].once.Fresh?
    decreases |s.closing.rest|
  {
    if s.closing.rest == [] {
      ls', s' := Extend(config, ls, s, ConnFinish);
    } else {
      ls', s' := SweepTurn(config, ls, s, r);
      ls', s' := SweepOver(config, ls', s', r);
    }
  }

  /** Some order of the streams in the map. */
  lemma {:induction false} Order(m: map<nat, nat>) returns (order: seq<nat>)
    ensures |order| == |m| && forall r :: r in order <==> r in m.Values
    decreases |m|
  {
    if m == map[] {
      order := [];
    } else {
      var k :| k in m;
      var rest := m - {k};
      order := Order(rest);
      order := order + [m[k]];
      assert |rest| == |m| - 1;
      forall v | v in m.Values ensures v in order {
        var j :| j in m && m[j] == v;
        assert j != k ==> j in rest && rest[j] == v;
      }
    }
  }

  /** Whenever opening a stream displaces one that nobody is closing yet, the run can go on so that
      the connection is closed to the end and the displaced stream never is. */
  lemma DisplacedStreamIsMissed(config: Config, ls: seq<Label>, s: State) returns (ls': seq<Label>, s': State)
    requires After(Init(config), ls) == Some(s) && Enabled(s, OpenStream) && Displaces(s, OpenStream)
    requires s.streams[NextId(s.counter)] < |s.objs| && s.objs[s.streams[NextId(s.counter)]].once.Fresh?
    ensures After(Init(config), ls') == Some(s') && s'.closing.Finished?
    ensures |s'.objs| == |s.objs| + 1 && s'.objs[s.streams[NextId(s.counter)]].once.Fresh?
  {
    var r := s.streams[NextId(s.counter)];
    WfRun(config, ls);
    ls', s' := Extend(config, ls, s, OpenStream);
    WfStep(s, OpenStream);
    assert r !in s'.streams.Values;
    ls', s' := Swap(config, ls', s', r);
    ls', s' := SweepOver(config, ls', s', r);
  }

  lemma Swap(config: Config, ls: seq<Label>, s: State, r: nat) returns (ls': seq<Label>, s': State)
    requires After(Init(config), ls) == Some(s) && Wf(s) && s.closing.Open?
    requires r < |s.objs| && s.objs[r].once.Fresh? && r !in s.streams.Values
    ensures After(Init(config), ls') == Some(s') && Missed(s', r) && s'.objs == s.objs
  {
    var order := Order(s.streams);
    ls', s' := Extend(config, ls, s, ConnSignal);
    ls', s' := Extend(config, ls', s', ConnSwap(order));
    forall q | q in order ensures q < |s.objs| {
      var id :| id in s.streams && s.streams[id] == q;
    }
  }

  /** It takes 2^32 streams, and so many are enough: the first id comes round again, its map entry
      is overwritten, and closing the connection misses the stream still open under it. */
  lemma WrappedIdOutlivesConnection() returns (ls: seq<Label>, s: State)
    ensures After(Init(UNLIMITED), ls) == Some(s)
    ensures s.closing.Finished? && |s.objs| == PERIOD + 1 && s.objs[0].once.Fresh?
  {
    ls, s := Churn(PERIOD);
    assert IdAt(PERIOD) == PERIOD;
    assert NextId(s.counter) == 1;
    ls, s := DisplacedStreamIsMissed(UNLIMITED, ls, s);
  }
}
