/** The gateway's connection and stream objects with their own fields, each method run without
    interruption. Every method is tied to the machine of `GatewayMux`: what it does to the fields
    is what a step, or a stretch of steps taken in one go, does to the machine's state. */
module GatewayConn {
  import opened Messages
  import opened Options
  import opened Scripts
  import opened Tables
  import M = GatewayMux

  class Stream {
    const id: nat
    const mode: RelayMode
    ghost const ref: nat
    var rx: seq<Message>
    var entered: bool             // closeOnce has been used
    var closed: bool              // closedCh is closed
    var err: Option<M.Cause>
    ghost var model: M.Stream

    constructor (id: nat, mode: RelayMode, ghost ref: nat, ghost base: nat)
      ensures Valid() && this.id == id && this.ref == ref && model == M.NewStream(id, mode, base)
    {
      this.id, this.mode, this.ref := id, mode, ref;
      rx, entered, closed, err := [], false, false, None;
      model := M.NewStream(id, mode, base);
    }

    ghost predicate Valid()
      reads this
    {
      && model.id == id && model.mode == mode && model.rx == rx
      && (entered <==> !model.once.Fresh?)
      && (closed <==> model.Closed())
      && (entered ==> err == Some(model.once.cause))
    }

    /** No goroutine is inside `closeOnce.Do`. */
    ghost predicate Idle()
      reads this
    {
      model.once.Fresh? || model.once.Done?
    }

    /** The fields of the stream through the body of `closeOnce.Do`. */
    method Finish(cause: M.Cause)
      requires Valid() && model.Can(M.Begin(cause))
      modifies this
      ensures Valid() && rx == old(rx) && model == ShutStream(old(model), cause)
    {
      entered := true;
      err := Some(cause);
      closed := true;
      model := ShutStream(model, cause);
    }

    /** One receive without a deadline that does not have to wait: a queued frame or, if the stream
        is closed, perhaps its error instead. */
    method Recv() returns (f: Option<Message>, failure: Option<M.Cause>)
      requires Valid() && (rx != [] || closed) && (rx != [] ==> model.Can(M.Recv))
      modifies this
      ensures Valid()
      ensures f.Some? ==> old(rx) != [] && f.value == old(rx)[0] && model == old(model).Do(M.Recv)
      ensures f.None? ==> old(closed) && failure == err && model == old(model) && rx == old(rx)
    {
      f, failure := None, None;
      if {
        case rx != [] =>
          f := Some(rx[0]);
          model := model.Do(M.Recv);
          rx := rx[1..];
        case closed =>
          failure := err;
      }
    }
  }

  class AgentConn {
    const config: M.Config
    var nextStream: nat
    var streams: map<nat, Stream>
    var closed: bool
    ghost var all: seq<Stream>
    ghost var model: M.State

    constructor (config: M.Config)
      ensures Valid() && Idle() && model == M.Init(config)
    {
      this.config := config;
      nextStream, streams, closed := 0, map[], false;
      all, model := [], M.Init(config);
    }

    ghost predicate Objects()
      reads this, all
    {
      && |all| == |model.objs|
      && (forall i :: 0 <= i < |all| ==> all[i].ref == i && all[i].Valid() && all[i].model == model.objs[i])
    }

    ghost predicate Table()
      reads this, all
    {
      && streams.Keys == model.streams.Keys
      && (forall id :: id in streams ==> streams[id] in all && streams[id].ref == model.streams[id])
    }

    ghost predicate Valid()
      reads this, all
    {
      && model.config == config && model.counter == nextStream
      && (closed <==> !model.closing.Open?)
      && Objects() && Table() && M.Wf(model)
    }

    ghost predicate Idle()
      reads all
      reads this
    {
      forall s :: s in all ==> s.Idle()
    }

    lemma AtItsRef(s: Stream)
      requires Objects() && s in all
      ensures s.ref < |all| && all[s.ref] == s
      ensures forall i :: 0 <= i < |all| && i != s.ref ==> all[i] != s
    {
      var i :| 0 <= i < |all| && all[i] == s;
    }

    /** The bookkeeping when one object has changed. */
    twostate lemma ObjectsAfter(s: Stream)
      requires old(Objects()) && s in all && all == old(all) && s.ref < |old(model).objs|
      requires forall o :: o in all && o != s ==> unchanged(o)
      requires s.Valid() && model.objs == old(model).objs[s.ref := s.model]
      ensures Objects()
    {
      var k :| 0 <= k < |all| && all[k] == s;
      forall i | 0 <= i < |all| ensures all[i].ref == i && all[i].Valid() && all[i].model == model.objs[i] {
        var o := all[i];
        assert o in all && o.ref == i && old(all[i].Valid()) && old(all[i].model == model.objs[i]);
        if o != s { assert unchanged(o); }
      }
    }

    method NewStream() returns (s: Option<Stream>)
      requires Valid() && Idle()
      modifies this
      ensures Valid() && Idle()
      ensures s.Some? <==> M.Enabled(old(model), M.OpenStream)
      ensures s.None? ==> model == old(model) && all == old(all)
      ensures s.Some? ==> fresh(s.value) && all == old(all) + [s.value]
      ensures s.Some? ==> model == M.Apply(old(model), M.OpenStream)
      ensures s.Some? ==> s.value.id == M.NextId(old(nextStream)) && s.value.id in streams
      ensures s.Some? ==> streams[s.value.id] == s.value
    {
      assert |streams| == |model.streams| by {
        assert |streams.Keys| == |streams| && |model.streams.Keys| == |model.streams|;
      }
      OpensWhen(model);
      if closed {
        return None;
      }
      if config.maxStreams > 0 && |streams| >= config.maxStreams {
        return None;
      }
      var id := (nextStream + 1) % 0x1_0000_0000;
      if id == 0 {
        id := 1;
      }
      var made := Enter(id);
      s := Some(made);
    }

    method Enter(id: nat) returns (made: Stream)
      requires Valid() && Idle() && id == M.NextId(nextStream) && M.Wf(Opened(model))
      modifies this
      ensures Valid() && Idle() && model == Opened(old(model)) && nextStream == id
      ensures fresh(made) && all == old(all) + [made] && streams == old(streams)[id := made] && made.id == id
    {
      made := new Stream(id, config.mode, |all|, |For(model.inbox, id)|);
      nextStream := id;
      streams := streams[id := made];
      all := all + [made];
      model := Opened(model);
    }

    method GetStream(id: nat) returns (s: Option<Stream>)
      requires Valid()
      ensures s.Some? <==> id in model.streams
      ensures id in streams ==> s == Some(streams[id])
      ensures s.Some? ==> s.value in all && s.value.ref == model.streams[id] && s.value.id == id
    {
      if id in streams {
        AtItsRef(streams[id]);
        s := Some(streams[id]);
      } else {
        s := None;
      }
    }

    /** `recv` on a stream of this connection. */
    method Receive(s: Stream) returns (f: Option<Message>, failure: Option<M.Cause>)
      requires Valid() && Idle() && s in all && (s.rx != [] || s.closed)
      requires s.rx != [] ==> s.model.Can(M.Recv)
      modifies this, s
      ensures Valid() && Idle() && all == old(all) && streams == old(streams)
      ensures f.Some? ==> old(s.rx) == [f.value] + s.rx
      ensures f.None? ==> old(s.closed) && failure == s.err && s.rx == old(s.rx)
      ensures M.After(old(model), if f.Some? then [M.On(s.ref, M.Recv)] else []) == Some(model)
    {
      AtItsRef(s);
      f, failure := s.Recv();
      if f.Some? {
        OnStep(model, s.ref, M.Recv);
        M.WfOn(model, s.ref, M.Recv);
        model := M.ApplyOn(model, s.ref, M.Recv);
      }
      ObjectsAfter(s);
    }

    /** `send`: refused on a closed stream, otherwise the frame of the act goes out under the
        stream's id. */
    method Send(s: Stream, m: Message, ghost act: M.Act) returns (ok: bool)
      requires Valid() && Idle() && s in all && Sends(s.model, act, m)
      modifies this, s
      ensures Valid() && Idle() && all == old(all) && streams == old(streams) && s.rx == old(s.rx)
      ensures ok <==> !s.closed
      ensures M.After(old(model), if ok then [M.On(s.ref, act)] else []) == Some(model)
      ensures model.outbox == old(model).outbox + (if ok then [Packet(s.id, m)] else [])
    {
      ok := !s.closed;
      if ok {
        WriteFrame(s, m, act);
      }
    }

    /** What `send` does once it has seen the stream open, and what the reset for a full queue does
        without looking. By then the stream may have been closed; the frame goes out all the same. */
    method WriteFrame(s: Stream, m: Message, ghost act: M.Act)
      requires Valid() && Idle() && s in all && Sends(s.model, act, m)
      modifies this, s
      ensures Valid() && Idle() && all == old(all) && streams == old(streams)
      ensures s.rx == old(s.rx) && s.closed == old(s.closed)
      ensures M.After(old(model), [M.On(s.ref, act)]) == Some(model)
      ensures model.outbox == old(model).outbox + [Packet(s.id, m)]
    {
      AtItsRef(s);
      TalkRun(model, s.ref, act);
      s.model := s.model.Do(act);
      model := M.ApplyOn(model, s.ref, act);
      ObjectsAfter(s);
    }

    /** `closeWithErr` on a stream that nobody has closed yet: the whole of `closeOnce.Do`. */
    method Shut(s: Stream, cause: M.Cause)
      requires Valid() && s in all && s.model.Can(M.Begin(cause))
      modifies this, s
      ensures Valid() && all == old(all) && s.model.once == M.Done(cause) && s.rx == old(s.rx)
      ensures s.ref < |old(model).objs| && old(model).objs[s.ref].Can(M.Begin(cause))
      ensures model == ShutBy(old(model), s.ref, cause)
    {
      AtItsRef(s);
      ShutWf(model, s.ref, cause);
      s.Finish(cause);
      streams := streams - {s.id};
      model := ShutBy(model, s.ref, cause);
      ObjectsAfter(s);
    }

    /** The handler returns from its receive loop. */
    ghost method Leave(s: Stream)
      requires Valid() && Idle() && s in all && s.model.Can(M.Leave)
      modifies this`model, s`model
      ensures Valid() && Idle() && s.model.left
      ensures M.After(old(model), [M.On(s.ref, M.Leave)]) == Some(model)
    {
      AtItsRef(s);
      TalkRun(model, s.ref, M.Leave);
      s.model := s.model.Do(M.Leave);
      model := M.ApplyOn(model, s.ref, M.Leave);
      ObjectsAfter(s);
    }

    /** `closeWithErr` on a stream by its handler or watcher; nothing if it was closed before. */
    method CloseStream(s: Stream, cause: M.Cause)
      requires Valid() && Idle() && s in all
      requires cause.Cancelled? || (cause.HandlerExit? && s.model.left)
      modifies this, s
      ensures Valid() && Idle() && all == old(all) && s.model.once.Done?
      ensures M.After(old(model), if old(s.entered) then [] else CloseSteps(s.ref, cause)) == Some(model)
    {
      AtItsRef(s);
      if !s.entered {
        CloseRun(model, s.ref, cause);
        Shut(s, cause);
      }
    }

    /** One turn of the read loop, with a frame that decoded: a frame for an unknown id vanishes. */
    method HandleFrame(p: Packet) returns (ghost ms: seq<M.Label>)
      requires Valid() && Idle() && model.loop.Reading?
      modifies this, all
      ensures Valid() && Idle() && all == old(all) && model.loop.Reading?
      ensures M.After(old(model), [M.Lookup(p)] + ms) == Some(model)
      ensures p.stream !in old(streams) ==> ms == [] && streams == old(streams)
      ensures p.stream in old(streams) ==> Handed(old(streams)[p.stream], p.msg, ms)
    {
      var s := GetStream(p.stream);
      if s.None? {
        ms := [];
        Ignore(p);
        assert [M.Lookup(p)] + ms == [M.Lookup(p)];
      } else {
        ms := Hand(s.value, p);
      }
    }

    ghost method Ignore(p: Packet)
      requires Valid() && Idle() && model.loop.Reading? && p.stream !in model.streams
      modifies this`model
      ensures Valid() && Idle() && model.loop.Reading?
      ensures M.After(old(model), [M.Lookup(p)]) == Some(model)
    {
      LookupRun(model, p);
      model := LookedUp(model, p);
    }

    /** What `deliver` did with a frame: a place in the queue, nothing on a closed stream, or the
        reset, which comes exactly when the queue of an open stream is full. */
    twostate predicate Handed(s: Stream, f: Message, ms: seq<M.Label>)
      reads s
    {
      && (ms == [M.Enqueue] || ms == [M.Drop] || ms == OverflowSteps(s.ref))
      && s.rx == old(s.rx) + (if ms == [M.Enqueue] then [f] else [])
      && (ms == OverflowSteps(s.ref) <==> |old(s.rx)| >= M.RECEIVE_QUEUE_FRAMES && !old(s.closed))
      && (ms == [M.Drop] ==> old(s.closed))
    }

    method Hand(s: Stream, p: Packet) returns (ghost ms: seq<M.Label>)
      requires Valid() && Idle() && model.loop.Reading? && s in all
      requires p.stream in model.streams && s.ref == model.streams[p.stream]
      modifies this, s
      ensures Valid() && Idle() && all == old(all) && model.loop.Reading?
      ensures M.After(old(model), [M.Lookup(p)] + ms) == Some(model)
      ensures Handed(s, p.msg, ms)
    {
      ghost var before := model;
      Offer(s, p);
      ms := Deliver(s, p.msg);
      Joined(before, [M.Lookup(p)], ms);
    }

    ghost method Offer(s: Stream, p: Packet)
      requires Valid() && Idle() && s in all && model.loop.Reading?
      requires p.stream in model.streams && s.ref == model.streams[p.stream]
      modifies this`model, s`model
      ensures Valid() && Idle() && model.loop == M.Delivering(s.ref, p.msg)
      ensures M.After(old(model), [M.Lookup(p)]) == Some(model)
    {
      LookupRun(model, p);
      Record(s, p);
    }

    ghost method Record(s: Stream, p: Packet)
      requires Valid() && Idle() && s in all && p.stream in model.streams && s.ref == model.streams[p.stream]
      requires M.Wf(LookedUp(model, p))
      modifies this`model, s`model
      ensures Valid() && Idle() && model == LookedUp(old(model), p)
    {
      AtItsRef(s);
      s.model := s.model.(offered := s.model.offered + [p.msg]);
      model := LookedUp(model, p);
      ObjectsAfter(s);
    }

    /** `deliver`: Go's select takes either ready case, and only if neither is ready the reset. */
    method Deliver(s: Stream, f: Message) returns (ghost ls: seq<M.Label>)
      requires Valid() && Idle() && s in all && model.loop == M.Delivering(s.ref, f)
      modifies this, s
      ensures Valid() && Idle() && all == old(all) && model.loop.Reading?
      ensures M.After(old(model), ls) == Some(model)
      ensures Handed(s, f, ls)
    {
      AtItsRef(s);
      if {
        case |s.rx| < M.RECEIVE_QUEUE_FRAMES =>
          ls := [M.Enqueue];
          Push(s, f);
        case s.closed =>
          ls := [M.Drop];
          Discard(s);
        case |s.rx| >= M.RECEIVE_QUEUE_FRAMES && !s.closed =>
          ls := OverflowSteps(s.ref);
          Reset(s);
      }
    }

    ghost method Discard(s: Stream)
      requires Valid() && Idle() && s in all && model.loop.Delivering? && model.loop.ref == s.ref && s.closed
      modifies this`model
      ensures Valid() && Idle() && model.loop.Reading? && M.After(old(model), [M.Drop]) == Some(model)
    {
      AtItsRef(s);
      DropRun(model);
      Turn(M.Reading, model.closing);
    }

    ghost method Turn(loop: M.Loop, closing: M.Closing)
      requires Valid() && M.Wf(model.(loop := loop, closing := closing))
      requires closing.Open? <==> model.closing.Open?
      modifies this`model
      ensures Valid() && model == old(model).(loop := loop, closing := closing)
    {
      model := model.(loop := loop, closing := closing);
    }

    /** `resetWithErr` by the read loop; the frame itself goes to a goroutine of its own. */
    method Reset(s: Stream)
      requires Valid() && Idle() && s in all && model.loop.Delivering? && model.loop.ref == s.ref
      requires |s.rx| >= M.RECEIVE_QUEUE_FRAMES && !s.closed
      modifies this, s
      ensures Valid() && Idle() && all == old(all) && model.loop.Reading? && s.rx == old(s.rx)
      ensures M.After(old(model), OverflowSteps(s.ref)) == Some(model)
    {
      AtItsRef(s);
      OverflowRun(model);
      Turn(M.Resetting(s.ref), model.closing);
      Shut(s, M.Overflowed);
      Turn(M.Reading, model.closing);
    }

    /** The frame takes a free place in the queue. */
    method Push(s: Stream, f: Message)
      requires Valid() && Idle() && s in all && model.loop == M.Delivering(s.ref, f)
      requires |s.rx| < M.RECEIVE_QUEUE_FRAMES
      modifies this`model, s
      ensures Valid() && Idle() && s.rx == old(s.rx) + [f] && model.loop.Reading?
      ensures M.After(old(model), [M.Enqueue]) == Some(model)
    {
      AtItsRef(s);
      EnqueueRun(model);
      s.rx := s.rx + [f];
      s.model := s.model.(rx := s.rx);
      model := Enqueued(model);
      ObjectsAfter(s);
    }

    /** `closeWithErr` on the connection, the first time: the channel, the map, then every stream
        that was in it. */
    method Close() returns (ghost ls: seq<M.Label>)
      requires Valid() && Idle() && model.closing.Open?
      modifies this, all
      ensures Valid() && Idle() && all == old(all) && closed && streams == map[]
      ensures model.closing.Finished? && M.After(old(model), ls) == Some(model)
      ensures forall id :: id in old(streams) ==> old(streams)[id].closed
    {
      ghost var before := model;
      var rest := Detach();
      ghost var mid := model;
      ghost var ms := Sweep(rest);
      ls := [M.ConnSignal, M.ConnSwap(Numbers(rest, RefOf))] + ms + [M.ConnFinish];
      WholeClose(before, [M.ConnSignal, M.ConnSwap(Numbers(rest, RefOf))], mid, ms, model);
      Turn(model.loop, M.Finished);
    }

    method Sweep(rest: seq<Stream>) returns (ghost ms: seq<M.Label>)
      requires Valid() && Idle() && closed && streams == map[] && (forall s :: s in rest ==> s in all)
      requires model.closing == M.Sweeping(Numbers(rest, RefOf))
      modifies this, all
      ensures Valid() && Idle() && all == old(all) && closed && streams == map[]
      ensures model.closing == M.Sweeping([]) && M.After(old(model), ms) == Some(model)
      ensures forall s :: s in rest ==> s.closed
    {
      ghost var before := model;
      ms := [];
      var i := 0;
      while i < |rest|
        invariant 0 <= i <= |rest| && all == old(all) && closed && streams == map[]
        invariant Valid() && Idle()
        invariant model.closing == M.Sweeping(Numbers(rest[i..], RefOf))
        invariant M.After(before, ms) == Some(model)
        invariant forall j :: 0 <= j < i ==> rest[j].closed
      {
        assert rest[i] in rest;
        ghost var turn := SweepOne(rest[i], Numbers(rest[i..], RefOf));
        Joined(before, ms, turn);
        ms := ms + turn;
        assert Numbers(rest[i..], RefOf)[1..] == Numbers(rest[i + 1..], RefOf);
        i := i + 1;
      }
      assert Numbers(rest[i..], RefOf) == [];
    }

    /** The channel closed and the map taken away. */
    method Detach() returns (rest: seq<Stream>)
      requires Valid() && model.closing.Open?
      modifies this
      ensures Valid() && all == old(all) && closed && streams == map[]
      ensures Lists(rest, old(streams)) && (forall s :: s in rest ==> s in all)
      ensures model == Swapped(old(model), Numbers(rest, RefOf))
      ensures M.After(old(model), [M.ConnSignal, M.ConnSwap(Numbers(rest, RefOf))]) == Some(model)
    {
      rest := ListOf(streams);
      NumbersOfTable(rest, streams, model.streams, RefOf);
      SwapRun(model, Numbers(rest, RefOf));
      assert forall s :: s in rest ==> s in all;
      TakeMap(Numbers(rest, RefOf));
    }

    method TakeMap(ghost order: seq<nat>)
      requires Valid() && M.Wf(Swapped(model, order))
      modifies this
      ensures Valid() && all == old(all) && closed && streams == map[] && model == Swapped(old(model), order)
    {
      closed := true;
      streams := map[];
      model := Swapped(model, order);
    }

    /** One turn of the sweep. */
    method SweepOne(s: Stream, ghost rest: seq<nat>) returns (ghost ms: seq<M.Label>)
      requires Valid() && Idle() && s in all && rest != [] && rest[0] == s.ref
      requires model.closing == M.Sweeping(rest)
      modifies this, s
      ensures Valid() && Idle() && all == old(all) && s.closed && streams == old(streams) && closed == old(closed)
      ensures model.closing == M.Sweeping(rest[1..])
      ensures M.After(old(model), ms) == Some(model)
    {
      AtItsRef(s);
      if s.entered {
        ms := [M.SweepNext];
        SkipRun(model);
      } else {
        ms := SweepSteps(s.ref);
        SweepRun(model);
        Shut(s, M.AgentGone);
      }
      Turn(model.loop, M.Sweeping(rest[1..]));
    }
  }

  // ----- the stretches of steps the methods stand for -----

  ghost function RefOf(s: Stream): nat { s.ref }

  ghost function CloseSteps(r: nat, cause: M.Cause): seq<M.Label> {
    [M.On(r, M.Begin(cause))] + Rest(r)
  }

  ghost function OverflowSteps(r: nat): seq<M.Label> {
    [M.Overflow] + ResetSteps(r)
  }

  ghost function ResetSteps(r: nat): seq<M.Label> {
    [M.ResetBegin] + Rest(r) + [M.ResetDone]
  }

  ghost function SweepSteps(r: nat): seq<M.Label> {
    [M.SweepBegin] + Rest(r) + [M.SweepNext]
  }

  ghost function Rest(r: nat): seq<M.Label> {
    [M.On(r, M.CloseChannel), M.On(r, M.Forget)]
  }

  ghost function Opened(m: M.State): M.State {
    var id := M.NextId(m.counter);
    m.(counter := id, streams := m.streams[id := |m.objs|],
       objs := m.objs + [M.NewStream(id, m.config.mode, |For(m.inbox, id)|)])
  }

  ghost function LookedUp(m: M.State, p: Packet): M.State
    requires M.Wf(m)
  {
    if p.stream in m.streams then
      var r := m.streams[p.stream];
      m.(inbox := m.inbox + [p], loop := M.Delivering(r, p.msg),
         objs := m.objs[r := m.objs[r].(offered := m.objs[r].offered + [p.msg])])
    else m.(inbox := m.inbox + [p])
  }

  ghost function Enqueued(m: M.State): M.State
    requires M.Busy(m) && m.loop.Delivering?
  {
    var o := m.objs[m.loop.ref];
    m.(loop := M.Reading, objs := m.objs[m.loop.ref := o.(rx := o.rx + [m.loop.msg])])
  }

  ghost function ShutStream(o: M.Stream, cause: M.Cause): M.Stream
    requires o.Can(M.Begin(cause))
  {
    o.Do(M.Begin(cause)).Do(M.CloseChannel).Do(M.Forget)
  }

  /** A stream taken through `closeOnce.Do` in one go. */
  ghost function ShutBy(m: M.State, r: nat, cause: M.Cause): M.State
    requires r < |m.objs| && m.objs[r].Can(M.Begin(cause))
  {
    var o := m.objs[r];
    m.(objs := m.objs[r := ShutStream(o, cause)],
       streams := m.streams - {o.id})
  }

  ghost function Swapped(m: M.State, order: seq<nat>): M.State {
    m.(closing := M.Sweeping(order), streams := map[])
  }

  /** The act by which frame `m` goes out. */
  ghost predicate Sends(o: M.Stream, act: M.Act, m: Message) {
    o.Can(act) && o.Says(act) == [Packet(o.id, m)]
  }

  /** An act on anything but the queue and the close leaves the object's fields as they are. */
  lemma TalkRun(m: M.State, r: nat, act: M.Act)
    requires M.Wf(m) && r < |m.objs| && m.objs[r].Can(act) && !M.IsQueueAct(act)
    ensures M.After(m, [M.On(r, act)]) == Some(M.ApplyOn(m, r, act)) && M.Wf(M.ApplyOn(m, r, act))
    ensures M.ApplyOn(m, r, act).streams == m.streams && M.ApplyOn(m, r, act).outbox == m.outbox + m.objs[r].Says(act)
    ensures var o, p := m.objs[r], m.objs[r].Do(act);
            p.id == o.id && p.mode == o.mode && p.rx == o.rx && p.once == o.once
  {
    OnStep(m, r, act);
    M.WfOn(m, r, act);
    M.TalkKeeps(m.objs[r], act);
  }

  lemma Then(s: M.State, ls: seq<M.Label>, m: M.State, l: M.Label, n: M.State)
    requires M.After(s, ls) == Some(m) && M.Enabled(m, l) && M.Apply(m, l) == n
    ensures M.After(s, ls + [l]) == Some(n)
  {
    M.AfterSnoc(s, ls, l);
  }

  lemma {:induction false} Joined(s: M.State, ls: seq<M.Label>, ms: seq<M.Label>)
    requires M.After(s, ls).Some? && M.After(M.After(s, ls).value, ms).Some?
    ensures M.After(s, ls + ms) == M.After(M.After(s, ls).value, ms)
  {
    if ms == [] {
      assert ls + ms == ls;
    } else {
      var n := |ms| - 1;
      Joined(s, ls, ms[..n]);
      assert (ls + ms)[..|ls + ms| - 1] == ls + ms[..n];
    }
  }

  lemma OneStep(m: M.State, l: M.Label, n: M.State)
    requires M.Enabled(m, l) && M.Apply(m, l) == n
    ensures M.After(m, [l]) == Some(n)
  {
    Then(m, [], m, l, n);
    assert [] + [l] == [l];
  }

  lemma OpensWhen(m: M.State)
    requires M.Wf(m)
    ensures M.Enabled(m, M.OpenStream) <==>
            m.closing.Open? && (m.config.maxStreams > 0 ==> |m.streams| < m.config.maxStreams)
    ensures M.Enabled(m, M.OpenStream) ==> M.Apply(m, M.OpenStream) == Opened(m) && M.Wf(Opened(m))
  {
  }

  lemma LookupRun(m: M.State, p: Packet)
    requires M.Wf(m) && m.loop.Reading?
    ensures M.After(m, [M.Lookup(p)]) == Some(LookedUp(m, p)) && M.Wf(LookedUp(m, p))
  {
    OneStep(m, M.Lookup(p), LookedUp(m, p));
  }

  lemma EnqueueRun(m: M.State)
    requires M.Wf(m) && m.loop.Delivering? && m.loop.ref < |m.objs|
    requires |m.objs[m.loop.ref].rx| < M.RECEIVE_QUEUE_FRAMES
    ensures M.After(m, [M.Enqueue]) == Some(Enqueued(m)) && M.Wf(Enqueued(m))
  {
    OneStep(m, M.Enqueue, Enqueued(m));
  }

  lemma DropRun(m: M.State)
    requires M.Wf(m) && m.loop.Delivering? && m.loop.ref < |m.objs| && m.objs[m.loop.ref].Closed()
    ensures M.After(m, [M.Drop]) == Some(m.(loop := M.Reading)) && M.Wf(m.(loop := M.Reading))
  {
    OneStep(m, M.Drop, m.(loop := M.Reading));
  }

  lemma ShutWf(m: M.State, r: nat, cause: M.Cause)
    requires M.Wf(m) && r < |m.objs| && m.objs[r].Can(M.Begin(cause))
    ensures M.Wf(ShutBy(m, r, cause))
  {
  }

  lemma OnStep(m: M.State, r: nat, act: M.Act)
    requires r < |m.objs| && m.objs[r].Can(act)
    requires act.Begin? ==> act.cause.HandlerExit? || act.cause.Cancelled?
    ensures M.After(m, [M.On(r, act)]) == Some(M.ApplyOn(m, r, act))
  {
    OneStep(m, M.On(r, act), M.ApplyOn(m, r, act));
  }

  /** From inside `closeOnce.Do` to its end. */
  lemma RestRun(m: M.State, r: nat, cause: M.Cause)
    requires r < |m.objs| && m.objs[r].Can(M.Begin(cause))
    ensures M.After(M.ApplyOn(m, r, M.Begin(cause)), Rest(r)) == Some(ShutBy(m, r, cause))
  {
    var a := M.ApplyOn(m, r, M.Begin(cause));
    assert a.objs[r] == m.objs[r].Do(M.Begin(cause)) && a.outbox == m.outbox;
    OnStep(a, r, M.CloseChannel);
    var b := M.ApplyOn(a, r, M.CloseChannel);
    assert b.objs[r] == a.objs[r].Do(M.CloseChannel) && b.outbox == m.outbox;
    OnStep(b, r, M.Forget);
    assert M.ApplyOn(b, r, M.Forget) == ShutBy(m, r, cause);
    Joined(a, [M.On(r, M.CloseChannel)], [M.On(r, M.Forget)]);
  }

  lemma CloseRun(m: M.State, r: nat, cause: M.Cause)
    requires r < |m.objs| && m.objs[r].Can(M.Begin(cause)) && (cause.HandlerExit? || cause.Cancelled?)
    ensures M.After(m, CloseSteps(r, cause)) == Some(ShutBy(m, r, cause))
  {
    OnStep(m, r, M.Begin(cause));
    RestRun(m, r, cause);
    Joined(m, [M.On(r, M.Begin(cause))], Rest(r));
  }

  lemma OverflowRun(m: M.State)
    requires M.Enabled(m, M.Overflow) && m.objs[m.loop.ref].once.Fresh? && M.Wf(m)
    ensures var r, a := m.loop.ref, m.(loop := M.Resetting(m.loop.ref));
            && M.Wf(a) && M.Wf(ShutBy(a, r, M.Overflowed).(loop := M.Reading))
            && M.After(m, OverflowSteps(r)) == Some(ShutBy(a, r, M.Overflowed).(loop := M.Reading))
  {
    var r := m.loop.ref;
    var a := m.(loop := M.Resetting(r));
    OneStep(m, M.Overflow, a);
    ResetRun(a);
    Joined(m, [M.Overflow], ResetSteps(r));
  }

  lemma ResetRun(a: M.State)
    requires M.Enabled(a, M.ResetBegin) && M.Wf(a)
    ensures var n := ShutBy(a, a.loop.ref, M.Overflowed).(loop := M.Reading);
            M.Wf(n) && M.After(a, ResetSteps(a.loop.ref)) == Some(n)
  {
    var r := a.loop.ref;
    OneStep(a, M.ResetBegin, M.ApplyOn(a, r, M.Begin(M.Overflowed)));
    RestRun(a, r, M.Overflowed);
    Joined(a, [M.ResetBegin], Rest(r));
    var b := ShutBy(a, r, M.Overflowed);
    ShutWf(a, r, M.Overflowed);
    OneStep(b, M.ResetDone, b.(loop := M.Reading));
    Joined(a, [M.ResetBegin] + Rest(r), [M.ResetDone]);
  }

  lemma SwapRun(m: M.State, order: seq<nat>)
    requires m.closing.Open? && |order| == |m.streams| && (forall r :: r in order <==> r in m.streams.Values)
    requires M.Wf(m)
    ensures M.After(m, [M.ConnSignal, M.ConnSwap(order)]) == Some(Swapped(m, order))
    ensures M.Wf(Swapped(m, order))
  {
    var a := m.(closing := M.Signalled);
    OneStep(m, M.ConnSignal, a);
    OneStep(a, M.ConnSwap(order), Swapped(m, order));
    M.WfStep(a, M.ConnSwap(order));
    Joined(m, [M.ConnSignal], [M.ConnSwap(order)]);
  }

  lemma WholeClose(s: M.State, ls: seq<M.Label>, mid: M.State, ms: seq<M.Label>, m: M.State)
    requires M.After(s, ls) == Some(mid) && M.After(mid, ms) == Some(m) && m.closing == M.Sweeping([])
    ensures M.After(s, ls + ms + [M.ConnFinish]) == Some(m.(closing := M.Finished))
  {
    Joined(s, ls, ms);
    Then(s, ls + ms, m, M.ConnFinish, m.(closing := M.Finished));
  }

  lemma SkipRun(m: M.State)
    requires M.Enabled(m, M.SweepNext) && M.Wf(m)
    ensures M.After(m, [M.SweepNext]) == Some(m.(closing := M.Sweeping(m.closing.rest[1..])))
    ensures M.Wf(m.(closing := M.Sweeping(m.closing.rest[1..])))
  {
    M.WfStep(m, M.SweepNext);
    OneStep(m, M.SweepNext, m.(closing := M.Sweeping(m.closing.rest[1..])));
  }

  lemma SweepRun(m: M.State)
    requires M.Enabled(m, M.SweepBegin) && M.Wf(m)
    ensures var r := m.closing.rest[0];
            var n := ShutBy(m, r, M.AgentGone).(closing := M.Sweeping(m.closing.rest[1..]));
            M.Wf(n) && M.After(m, SweepSteps(r)) == Some(n)
  {
    var r := m.closing.rest[0];
    OneStep(m, M.SweepBegin, M.ApplyOn(m, r, M.Begin(M.AgentGone)));
    RestRun(m, r, M.AgentGone);
    Joined(m, [M.SweepBegin], Rest(r));
    ShutWf(m, r, M.AgentGone);
    SkipRun(ShutBy(m, r, M.AgentGone));
    Joined(m, [M.SweepBegin] + Rest(r), [M.SweepNext]);
  }
}
