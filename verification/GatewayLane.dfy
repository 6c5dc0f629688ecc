/** One stream alone. `Lane` is the machine of a single gateway stream with no map, no other
    streams and no connection; the multiplexed machine is shown to refine one lane per stream,
    and what queue overflow, cancellation and disconnection do to the frames of a stream is
    proved on the lane. */
module GatewayLane {
  import opened Messages
  import opened Options
  import opened Scripts
  import opened GatewayMux

  /** What the read loop is doing for this stream: nothing, holding a frame for it, or waiting
      for the stream's close-once after a full queue. */
  datatype Hand = Away | Holding(msg: Message) | Waiting

  datatype Lane = Lane(o: Stream, mapped: bool, hand: Hand)

  datatype LaneLabel =
    | LLookup(m: Message)
    | LEnqueue
    | LDrop
    | LOverflow
    | LResetBegin
    | LResetDone
    | LAct(act: Act)
    | LUnmap

  ghost predicate LaneEnabled(v: Lane, l: LaneLabel) {
    match l
    case LLookup(_) => v.mapped && v.hand.Away?
    case LEnqueue => v.hand.Holding? && |v.o.rx| < RECEIVE_QUEUE_FRAMES
    case LDrop => v.hand.Holding? && v.o.Closed()
    case LOverflow => v.hand.Holding? && |v.o.rx| >= RECEIVE_QUEUE_FRAMES && !v.o.Closed()
    case LResetBegin => v.hand.Waiting? && v.o.once.Fresh?
    case LResetDone => v.hand.Waiting? && v.o.once.Done?
    case LAct(act) =>
      && v.o.Can(act)
      && (act.Begin? ==> !act.cause.Overflowed? && (act.cause.AgentGone? ==> !v.mapped))
    case LUnmap => v.mapped
  }

  ghost function LaneApply(v: Lane, l: LaneLabel): Lane
    requires LaneEnabled(v, l)
  {
    match l
    case LLookup(m) => v.(o := v.o.(offered := v.o.offered + [m]), hand := Holding(m))
    case LEnqueue => v.(o := v.o.(rx := v.o.rx + [v.hand.msg]), hand := Away)
    case LDrop => v.(hand := Away)
    case LOverflow => v.(hand := Waiting)
    case LResetBegin => v.(o := v.o.Do(Begin(Overflowed)))
    case LResetDone => v.(hand := Away)
    case LAct(act) => v.(o := v.o.Do(act), mapped := v.mapped && !act.Forget?)
    case LUnmap => v.(mapped := false)
  }

  // ----- the multiplexer refines its lanes -----

  ghost function View(s: State, r: nat): Lane
    requires r < |s.objs|
  {
    Lane(s.objs[r], Mapped(s, r),
         if s.loop.Delivering? && s.loop.ref == r then Holding(s.loop.msg)
         else if s.loop.Resetting? && s.loop.ref == r then Waiting
         else Away)
  }

  /** The stream a step works on, None for steps of the connection itself, and what it does to it. */
  ghost function Subject(s: State, l: Label): Option<nat> {
    match l
    case Lookup(p) => if p.stream in s.streams then Some(s.streams[p.stream]) else None
    case Enqueue | Drop | Overflow | ResetBegin | ResetDone => if Busy(s) then Some(s.loop.ref) else None
    case On(r, _) => Some(r)
    case SweepBegin => if s.closing.Sweeping? && s.closing.rest != [] then Some(s.closing.rest[0]) else None
    case _ => None
  }

  ghost function Own(l: Label): Option<LaneLabel> {
    match l
    case Lookup(p) => Some(LLookup(p.msg))
    case Enqueue => Some(LEnqueue)
    case Drop => Some(LDrop)
    case Overflow => Some(LOverflow)
    case ResetBegin => Some(LResetBegin)
    case ResetDone => Some(LResetDone)
    case On(_, act) => Some(LAct(act))
    case SweepBegin => Some(LAct(Begin(AgentGone)))
    case _ => None
  }

  /** A step that takes stream `r` out of the map without working on `r`: the swap of the map,
      and, once ids repeat, a stream of the same id opening or being forgotten. */
  ghost predicate Unmaps(s: State, l: Label, r: nat)
    requires r < |s.objs|
  {
    && Mapped(s, r)
    && match l
       case OpenStream => NextId(s.counter) == s.objs[r].id
       case ConnSwap(_) => true
       case On(q, act) => act.Forget? && q != r && q < |s.objs| && s.objs[q].id == s.objs[r].id
       case _ => false
  }

  /** A step of the multiplexer as seen from the lane of stream `r`: None when unseen. */
  ghost function Seen(s: State, l: Label, r: nat): Option<LaneLabel>
    requires r < |s.objs|
  {
    if Unmaps(s, l, r) then Some(LUnmap)
    else if Subject(s, l) == Some(r) then Own(l)
    else None
  }

  lemma OnView(s: State, q: nat, act: Act, r: nat)
    requires q < |s.objs| && s.objs[q].Can(act) && r < |s.objs|
    ensures View(ApplyOn(s, q, act), r) ==
            if q == r then View(s, r).(o := s.objs[r].Do(act), mapped := Mapped(s, r) && !act.Forget?)
            else View(s, r).(mapped := Mapped(s, r) && !(act.Forget? && s.objs[q].id == s.objs[r].id))
  {
    assert s.objs[q].Do(act).id == s.objs[q].id;
    assert ApplyOn(s, q, act).objs[r].id == s.objs[r].id;
  }

  ghost predicate Refines(s: State, l: Label, r: nat)
    requires Enabled(s, l) && r < |s.objs|
  {
    && r < |Apply(s, l).objs|
    && match Seen(s, l, r)
       case None => View(Apply(s, l), r) == View(s, r)
       case Some(ll) => LaneEnabled(View(s, r), ll) && View(Apply(s, l), r) == LaneApply(View(s, r), ll)
  }

  lemma LookupRefinesLane(s: State, p: Packet, r: nat)
    requires Wf(s) && Enabled(s, Lookup(p)) && r < |s.objs|
    ensures Refines(s, Lookup(p), r)
  {
  }

  lemma DeliveryRefinesLane(s: State, l: Label, r: nat)
    requires Enabled(s, l) && r < |s.objs| && (l.Enqueue? || l.Drop? || l.Overflow? || l.ResetDone?)
    ensures Refines(s, l, r)
  {
  }

  lemma OnRefinesLane(s: State, q: nat, act: Act, r: nat)
    requires Enabled(s, On(q, act)) && r < |s.objs|
    ensures Refines(s, On(q, act), r)
  {
    OnView(s, q, act, r);
  }

  lemma CloserRefinesLane(s: State, l: Label, r: nat)
    requires Wf(s) && Enabled(s, l) && r < |s.objs| && (l.ResetBegin? || l.SweepBegin?)
    ensures Refines(s, l, r)
  {
    if l.ResetBegin? {
      OnView(s, s.loop.ref, Begin(Overflowed), r);
    } else {
      OnView(s, s.closing.rest[0], Begin(AgentGone), r);
    }
  }

  lemma ConnRefinesLane(s: State, l: Label, r: nat)
    requires Enabled(s, l) && r < |s.objs|
    requires l.OpenStream? || l.LoopExit? || l.ConnSignal? || l.ConnSwap? || l.SweepNext? || l.ConnFinish?
    ensures Refines(s, l, r)
  {
    assert Apply(s, l).objs[r] == s.objs[r];
  }

  /** Refinement: every step of the multiplexer is, for every stream, a step of that stream
      alone or no step at all. */
  lemma MuxRefinesLane(s: State, l: Label, r: nat)
    requires Wf(s) && Enabled(s, l) && r < |s.objs|
    ensures Refines(s, l, r)
  {
    match l
    case Lookup(p) => LookupRefinesLane(s, p, r);
    case Enqueue | Drop | Overflow | ResetDone => DeliveryRefinesLane(s, l, r);
    case On(q, act) => OnRefinesLane(s, q, act, r);
    case ResetBegin | SweepBegin => CloserRefinesLane(s, l, r);
    case _ => ConnRefinesLane(s, l, r);
  }

  /** Isolation: short of swapping the whole map out, a step on one stream leaves queue, flags,
      frames, registration and pending delivery of every stream with another id untouched. */
  lemma OtherStreamsUntouched(s: State, l: Label, r: nat)
    requires Wf(s) && Enabled(s, l) && r < |s.objs| && !l.ConnSwap?
    requires match Subject(s, l) case None => true case Some(q) => q < |s.objs| && s.objs[q].id != s.objs[r].id
    requires l.OpenStream? ==> NextId(s.counter) != s.objs[r].id
    ensures View(Apply(s, l), r) == View(s, r)
  {
    MuxRefinesLane(s, l, r);
  }

  // ----- what holds along a lane -----

  /** Closed by the client's or the handler's own doing. */
  ghost predicate ClosedLocally(o: Stream) {
    o.Closed() && (o.once.cause.HandlerExit? || o.once.cause.Cancelled?)
  }

  ghost predicate LaneInv(v: Lane) {
    var o := v.o;
    && (!o.once.Fresh? && o.once.cause.Overflowed? && !o.once.Done? ==> v.hand.Waiting?)
    && (!o.once.Fresh? && o.once.cause.AgentGone? ==> !v.mapped)
    && (o.once.Done? ==> !v.mapped)
    && (o.once.Done? && o.once.cause.Overflowed? ==> !v.hand.Holding?)
    && (!o.once.Fresh? && o.once.cause.HandlerExit? ==> o.left && o.taken <= o.offered)
    // as long as nobody closed it locally, what is queued is what was offered
    && (!ClosedLocally(o) ==>
          && o.Accepted() <= o.offered
          && (v.hand.Holding? ==> o.Accepted() + [v.hand.msg] == o.offered)
          && (v.hand.Away? && v.mapped ==> o.Accepted() == o.offered))
    // what was queued before the channel was closed stays a prefix of what was offered
    && (o.Closed() ==>
          && o.acceptedOpen <= |o.Accepted()|
          && o.Accepted()[..o.acceptedOpen] <= o.offered)
    && (o.Closed() && o.once.cause.Overflowed? ==> |o.Accepted()| == o.acceptedOpen)
    && (o.Closed() && o.once.cause.AgentGone? ==>
          && |o.Accepted()| <= o.acceptedOpen + 1
          && (v.hand.Holding? ==> |o.Accepted()| == o.acceptedOpen))
  }

  lemma LaneInvTalk(v: Lane, act: Act)
    requires LaneInv(v) && LaneEnabled(v, LAct(act)) && !IsQueueAct(act)
    ensures LaneInv(LaneApply(v, LAct(act)))
  {
    TalkKeeps(v.o, act);
    assert v.o.Do(act).Accepted() == v.o.Accepted();
  }

  lemma LaneInvClose(v: Lane, act: Act)
    requires LaneInv(v) && LaneEnabled(v, LAct(act)) && (act.Begin? || act.CloseChannel? || act.Forget?)
    ensures LaneInv(LaneApply(v, LAct(act)))
  {
    assert v.o.taken <= v.o.Accepted();
    if act.CloseChannel? { assert v.o.Accepted()[..|v.o.Accepted()|] == v.o.Accepted(); }
  }

  lemma LaneInvRecv(v: Lane)
    requires LaneInv(v) && LaneEnabled(v, LAct(Recv))
    ensures LaneInv(LaneApply(v, LAct(Recv)))
  {
    assert v.o.Do(Recv).Accepted() == v.o.Accepted();
  }

  lemma LaneInvAct(v: Lane, act: Act)
    requires LaneInv(v) && LaneEnabled(v, LAct(act))
    ensures LaneInv(LaneApply(v, LAct(act)))
  {
    if !IsQueueAct(act) {
      LaneInvTalk(v, act);
    } else if act.Recv? {
      LaneInvRecv(v);
    } else {
      LaneInvClose(v, act);
    }
  }

  lemma LaneInvStep(v: Lane, l: LaneLabel)
    requires LaneInv(v) && LaneEnabled(v, l)
    ensures LaneInv(LaneApply(v, l))
  {
    match l
    case LEnqueue => assert LaneApply(v, l).o.Accepted() == v.o.Accepted() + [v.hand.msg];
    case LAct(act) => LaneInvAct(v, act);
    case _ =>
  }

  /** Whatever was queued was offered, and a stream that overflows had frames queued. */
  ghost predicate Drawn(v: Lane) {
    && (forall m :: m in v.o.Accepted() ==> m in v.o.offered)
    && |v.o.Accepted()| + (if v.hand.Holding? then 1 else 0) <= |v.o.offered|
    && (v.hand.Holding? ==> v.hand.msg in v.o.offered)
    && (v.hand.Waiting? || v.o.resetOwed ==> v.o.Accepted() != [])
    && (!v.o.once.Fresh? && v.o.once.cause.Overflowed? && !v.o.once.Done? ==> v.hand.Waiting?)
  }

  lemma DrawnStep(v: Lane, l: LaneLabel)
    requires Drawn(v) && LaneEnabled(v, l)
    ensures Drawn(LaneApply(v, l))
  {
    if l.LEnqueue? {
      assert LaneApply(v, l).o.Accepted() == v.o.Accepted() + [v.hand.msg];
    } else if l.LAct? {
      DrawnAct(v, l.act);
    }
  }

  lemma DrawnAct(v: Lane, act: Act)
    requires Drawn(v) && LaneEnabled(v, LAct(act))
    ensures Drawn(LaneApply(v, LAct(act)))
  {
    if IsQueueAct(act) { QueueKeeps(v.o, act); } else { TalkKeeps(v.o, act); }
    assert v.o.Do(act).Accepted() == v.o.Accepted();
  }

  // ----- where holes come from -----

  /** A frame dropped while the stream is still in the map costs the stream its place in order: of
      all frames that may be queued next, only a copy of the first one missed leaves no hole. */
  lemma DropThenHole(v: Lane, m: Message)
    requires Drawn(v) && v.mapped && v.hand.Holding? && v.o.Closed() && |v.o.rx| < RECEIVE_QUEUE_FRAMES
    ensures LaneAfter(v, [LDrop, LLookup(m), LEnqueue]).Some?
    ensures var o := LaneAfter(v, [LDrop, LLookup(m), LEnqueue]).value.o;
            o.Accepted() <= o.offered <==> v.o.Accepted() <= v.o.offered && m == v.o.offered[|v.o.Accepted()|]
  {
    LaneSnoc(v, [], LDrop);
    LaneSnoc(v, [LDrop], LLookup(m));
    LaneSnoc(v, [LDrop] + [LLookup(m)], LEnqueue);
    assert [LDrop] + [LLookup(m)] + [LEnqueue] == [LDrop, LLookup(m), LEnqueue];
    assert v.o.taken + (v.o.rx + [m]) == v.o.Accepted() + [m];
    NextInOrder(v.o.Accepted(), v.o.offered, m);
  }

  lemma NextInOrder(accepted: seq<Message>, offered: seq<Message>, m: Message)
    requires |accepted| < |offered|
    ensures accepted + [m] <= offered + [m] <==> accepted <= offered && m == offered[|accepted|]
  {
    var k := |accepted|;
    if accepted + [m] <= offered + [m] {
      assert (accepted + [m])[k] == (offered + [m])[k];
      assert accepted == (accepted + [m])[..k] == (offered + [m])[..k] == offered[..k];
    }
  }

  lemma LaneSnoc(v: Lane, ls: seq<LaneLabel>, l: LaneLabel)
    requires LaneAfter(v, ls).Some? && LaneEnabled(LaneAfter(v, ls).value, l)
    ensures LaneAfter(v, ls + [l]) == Some(LaneApply(LaneAfter(v, ls).value, l))
  {
    assert (ls + [l])[..|ls|] == ls;
  }

  // ----- whole runs -----

  ghost function LaneAfter(v: Lane, ls: seq<LaneLabel>): Option<Lane> {
    if ls == [] then Some(v)
    else
      match LaneAfter(v, ls[..|ls| - 1])
      case None => None
      case Some(w) => if LaneEnabled(w, ls[|ls| - 1]) then Some(LaneApply(w, ls[|ls| - 1])) else None
  }

  /** A stream just made by `newStream`. */
  ghost predicate Newborn(v: Lane) {
    v.mapped && v.hand.Away? && v.o == NewStream(v.o.id, v.o.mode, v.o.base)
  }

  /** Any run of the multiplexer, projected onto one stream, is a run of that stream alone. */
  lemma {:induction false} RunProjects(config: Config, ls: seq<Label>, r: nat)
    returns (start: Lane, lane: seq<LaneLabel>)
    requires After(Init(config), ls).Some?
    requires r < |After(Init(config), ls).value.objs|
    ensures Newborn(start)
    ensures LaneAfter(start, lane) == Some(View(After(Init(config), ls).value, r))
  {
    var n := |ls| - 1;
    var s := After(Init(config), ls[..n]).value;
    WfRun(config, ls[..n]);
    if r < |s.objs| {
      start, lane := RunProjects(config, ls[..n], r);
      lane := StepProjects(start, lane, s, ls[n], r);
    } else {
      start, lane := View(Apply(s, ls[n]), r), [];
    }
  }

  lemma StepProjects(start: Lane, before: seq<LaneLabel>, s: State, l: Label, r: nat)
    returns (lane: seq<LaneLabel>)
    requires Wf(s) && Enabled(s, l) && r < |s.objs| && LaneAfter(start, before) == Some(View(s, r))
    ensures r < |Apply(s, l).objs| && LaneAfter(start, lane) == Some(View(Apply(s, l), r))
  {
    MuxRefinesLane(s, l, r);
    var seen := Seen(s, l, r);
    if seen.None? {
      lane := before;
    } else {
      LaneSnoc(start, before, seen.value);
      lane := before + [seen.value];
    }
  }

  lemma {:induction false} LaneInvRun(start: Lane, lane: seq<LaneLabel>)
    requires Newborn(start) && LaneAfter(start, lane).Some?
    ensures LaneInv(LaneAfter(start, lane).value)
  {
    if lane == [] {
    } else {
      var n := |lane| - 1;
      LaneInvRun(start, lane[..n]);
      LaneInvStep(LaneAfter(start, lane[..n]).value, lane[n]);
    }
  }

  lemma {:induction false} DrawnRun(start: Lane, lane: seq<LaneLabel>)
    requires Newborn(start) && LaneAfter(start, lane).Some?
    ensures Drawn(LaneAfter(start, lane).value)
  {
    if lane == [] {
    } else {
      var n := |lane| - 1;
      DrawnRun(start, lane[..n]);
      DrawnStep(LaneAfter(start, lane[..n]).value, lane[n]);
    }
  }

  /** In every run, what a stream queued was offered to it. */
  lemma DrawnHolds(config: Config, ls: seq<Label>, r: nat)
    requires After(Init(config), ls).Some?
    requires r < |After(Init(config), ls).value.objs|
    ensures Drawn(View(After(Init(config), ls).value, r))
  {
    var start, lane := RunProjects(config, ls, r);
    DrawnRun(start, lane);
  }

  lemma LaneInvHolds(config: Config, ls: seq<Label>, r: nat)
    requires After(Init(config), ls).Some?
    requires r < |After(Init(config), ls).value.objs|
    ensures LaneInv(View(After(Init(config), ls).value, r))
  {
    var start, lane := RunProjects(config, ls, r);
    LaneInvRun(start, lane);
  }

  /** In every run: a queue that nobody closed locally holds a gapless beginning of the frames
      addressed to its stream. Overflow adds none after the close, disconnection at most the one
      the read loop had in hand, and a handler that left has received a gapless beginning too. */
  lemma QueueTruncatesWithoutHoles(config: Config, ls: seq<Label>, r: nat)
    requires After(Init(config), ls).Some?
    requires r < |After(Init(config), ls).value.objs|
    ensures var v := View(After(Init(config), ls).value, r);
            var o := v.o;
            && (!ClosedLocally(o) ==> o.Accepted() <= o.offered)
            && (!o.Closed() && v.mapped && v.hand.Away? ==> o.Accepted() == o.offered)
            && (o.Closed() ==> o.acceptedOpen <= |o.Accepted()| && o.Accepted()[..o.acceptedOpen] <= o.offered)
            && (o.Closed() && o.once.cause.Overflowed? ==> |o.Accepted()| == o.acceptedOpen)
            && (o.Closed() && o.once.cause.AgentGone? ==> |o.Accepted()| <= o.acceptedOpen + 1)
            && (o.Closed() && !o.once.cause.Cancelled? ==> o.taken <= o.offered)
            && o.Heard() <= o.offered
  {
    LaneInvHolds(config, ls, r);
    var o := After(Init(config), ls).value.objs[r];
    assert o.taken <= o.Accepted();
    assert o.Closed() && |o.taken| <= o.acceptedOpen ==> o.taken <= o.Accepted()[..o.acceptedOpen];
    assert o.Closed() && o.acceptedOpen < |o.taken| ==> o.Heard() == o.Accepted()[..o.acceptedOpen];
  }

  /** A handler that left before its stream was closed took nothing out of turn, however the
      stream was closed then and whoever closed it. */
  lemma {:induction false} LeftInTime(s: State, ls: seq<Label>, r: nat)
    requires Wf(s) && After(s, ls).Some? && r < |s.objs| && s.objs[r].left && !s.objs[r].Closed()
    ensures Wf(After(s, ls).value) && r < |After(s, ls).value.objs|
    ensures var o := After(s, ls).value.objs[r]; o.left && o.Heard() == o.taken == s.objs[r].taken
    ensures var o := After(s, ls).value.objs[r]; o.Closed() ==> |o.taken| <= o.acceptedOpen
  {
    if ls == [] {
    } else {
      var n := |ls| - 1;
      var m := After(s, ls[..n]).value;
      LeftInTime(s, ls[..n], r);
      WfStep(m, ls[n]);
      MuxRefinesLane(m, ls[n], r);
      LeftStays(View(m, r), Seen(m, ls[n], r));
    }
  }

  lemma LeftStays(v: Lane, l: Option<LaneLabel>)
    requires v.o.left && (v.o.Closed() ==> |v.o.taken| <= v.o.acceptedOpen) && (l.Some? ==> LaneEnabled(v, l.value))
    ensures l.Some? ==>
              var p := LaneApply(v, l.value).o;
              p.left && p.taken == v.o.taken && (p.Closed() ==> |p.taken| <= p.acceptedOpen)
  {
    if l.Some? && l.value.LAct? && !IsQueueAct(l.value.act) { TalkKeeps(v.o, l.value.act); }
  }

  const UNLIMITED := Config(0, Framed)

  /** Only a local close can leave a hole, and it does: between closing the channel and dropping
      the map entry the read loop may drop one frame and queue the next. */
  lemma CancelCanLeaveAHole() returns (ls: seq<Label>)
    ensures After(Init(UNLIMITED), ls).Some?
    ensures var s := After(Init(UNLIMITED), ls).value;
            && |s.objs| == 1 && s.objs[0].once == Shut(Cancelled)
            && s.objs[0].offered == [ResData([1]), ResData([2])]
            && s.objs[0].Accepted() == [ResData([2])]
  {
    var s;
    ls, s := CancelWhileDelivering(ResData([1]));
    ls, s := Extend(UNLIMITED, ls, s, Drop);
    ls, s := ExtendLookup(ls, s, Packet(1, ResData([2])));
    ls, s := Extend(UNLIMITED, ls, s, Enqueue);
    assert s.objs[0].offered == [ResData([1])] + [ResData([2])];
  }

  /** A client that goes away while the read loop holds the stream's first frame. */
  lemma CancelWhileDelivering(m: Message) returns (ls: seq<Label>, s: State)
    ensures After(Init(UNLIMITED), ls) == Some(s)
    ensures s.streams == map[1 := 0] && s.loop == Delivering(0, m)
    ensures |s.objs| == 1 && s.objs[0].once == Shut(Cancelled)
    ensures s.objs[0].offered == [m] && s.objs[0].rx == [] && s.objs[0].taken == []
  {
    ls, s := OpenFirst();
    ls, s := ExtendLookup(ls, s, Packet(1, m));
    ls, s := ExtendOn(ls, s, 0, Begin(Cancelled));
    ls, s := ExtendOn(ls, s, 0, CloseChannel);
  }

  lemma OpenFirst() returns (ls: seq<Label>, s: State)
    ensures After(Init(UNLIMITED), ls) == Some(s)
    ensures s == State(UNLIMITED, 1, map[1 := 0], [NewStream(1, Framed, 0)], Reading, Open, [], [])
  {
    assert NextId(0) == 1;
    ls, s := Extend(UNLIMITED, [], Init(UNLIMITED), OpenStream);
  }

  lemma Extend(config: Config, ls: seq<Label>, s: State, l: Label) returns (ls': seq<Label>, s': State)
    requires After(Init(config), ls) == Some(s) && Enabled(s, l)
    ensures After(Init(config), ls') == Some(s') && s' == Apply(s, l)
  {
    AfterSnoc(Init(config), ls, l);
    ls', s' := ls + [l], Apply(s, l);
  }

  lemma ExtendOn(ls: seq<Label>, s: State, r: nat, act: Act) returns (ls': seq<Label>, s': State)
    requires After(Init(UNLIMITED), ls) == Some(s) && r < |s.objs| && s.objs[r].Can(act)
    requires act.Begin? ==> act.cause.HandlerExit? || act.cause.Cancelled?
    ensures After(Init(UNLIMITED), ls') == Some(s') && s' == ApplyOn(s, r, act)
  {
    ls', s' := Extend(UNLIMITED, ls, s, On(r, act));
  }

  lemma ExtendLookup(ls: seq<Label>, s: State, p: Packet) returns (ls': seq<Label>, s': State)
    requires After(Init(UNLIMITED), ls) == Some(s) && s.loop.Reading?
    requires p.stream in s.streams && s.streams[p.stream] < |s.objs|
    ensures After(Init(UNLIMITED), ls') == Some(s')
    ensures var r := s.streams[p.stream];
            s' == s.(inbox := s.inbox + [p], loop := Delivering(r, p.msg),
                     objs := s.objs[r := s.objs[r].(offered := s.objs[r].offered + [p.msg])])
  {
    ls', s' := Extend(UNLIMITED, ls, s, Lookup(p));
  }
}
