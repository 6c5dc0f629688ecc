/** The agent's connection and stream objects with their own fields, each method run without
    interruption and tied to the machine of `AgentMux` by the steps it stands for. */
module AgentConn {
  import opened Messages
  import opened Options
  import opened Tables
  import M = AgentMux

  class Stream {
    const id: nat
    ghost const ref: nat
    var rx: seq<Message>
    var closed: bool
    ghost var model: M.Stream

    constructor (id: nat, ghost ref: nat, ghost base: nat)
      ensures Valid() && this.id == id && this.ref == ref && model == M.NewStream(id, base)
    {
      this.id, this.ref := id, ref;
      rx, closed := [], false;
      model := M.NewStream(id, base);
    }

    ghost predicate Valid()
      reads this
    {
      model.id == id && model.rx == rx && model.closed == closed
    }

    method Close()
      requires Valid()
      modifies this
      ensures Valid() && closed && rx == old(rx) && model == old(model).(closed := true)
    {
      closed := true;
      model := model.(closed := true);
    }
  }

  class ConnState {
    const tcpTarget: bool
    var streams: map<nat, Stream>
    ghost var all: seq<Stream>
    ghost var model: M.State

    constructor (tcpTarget: bool)
      ensures Valid() && model == M.Init(tcpTarget)
    {
      this.tcpTarget := tcpTarget;
      streams, all, model := map[], [], M.Init(tcpTarget);
    }

    ghost predicate Objects()
      reads this, all
    {
      && |all| == |model.objs|
      && (forall i :: 0 <= i < |all| ==> all[i].ref == i && all[i].Valid() && all[i].model == model.objs[i])
    }

    ghost predicate Table()
      reads this, all
    {
      && streams.Keys == model.streams.Keys
      && (forall id :: id in streams ==>
            streams[id] in all && streams[id].ref == model.streams[id] && streams[id].id == id)
    }

    ghost predicate Valid()
      reads this, all
    {
      model.tcpTarget == tcpTarget && Objects() && Table()
    }

    lemma AtItsRef(s: Stream)
      requires Objects() && s in all
      ensures s.ref < |all| && all[s.ref] == s
      ensures forall i :: 0 <= i < |all| && i != s.ref ==> all[i] != s
    {
      var i :| 0 <= i < |all| && all[i] == s;
    }

    /** The bookkeeping when one object has changed. */
    twostate lemma ObjectsAfter(s: Stream)
      requires old(Objects()) && s in all && all == old(all) && s.ref < |old(model).objs|
      requires forall o :: o in all && o != s ==> unchanged(o)
      requires s.Valid() && model.objs == old(model).objs[s.ref := s.model]
      ensures Objects()
    {
      var k :| 0 <= k < |all| && all[k] == s;
      forall i | 0 <= i < |all| ensures all[i].ref == i && all[i].Valid() && all[i].model == model.objs[i] {
        var o := all[i];
        assert o in all && o.ref == i && old(all[i].Valid()) && old(all[i].model == model.objs[i]);
        if o != s { assert unchanged(o); }
      }
    }

    /** One turn of the read loop, with a frame that decoded. */
    method HandleFrame(p: Packet) returns (accepted: bool, ghost ls: seq<M.Label>)
      requires Valid() && model.loop.Reading?
      modifies this, if p.stream in streams then {streams[p.stream]} else {}
      ensures Valid() && model.loop.Reading? && old(all) <= all
      ensures M.After(old(model), [M.Accept(p)] + ls) == Some(model)
      ensures ls == [M.Enqueue] || ls == [M.Drop] || ls == OverflowSteps()
      ensures accepted <==> ls == [M.Enqueue]
      ensures p.stream !in old(streams) ==> accepted
    {
      ghost var before := model;
      var s := Route(p);
      accepted, ls := DeliverFrame(s, p.msg);
      Joined(before, [M.Accept(p)], ls);
    }

    method Route(p: Packet) returns (s: Stream)
      requires Valid() && model.loop.Reading?
      modifies this, (if p.stream in streams then {streams[p.stream]} else {})`model
      ensures Valid() && s in all && s.id == p.stream && streams == old(streams)[p.stream := s] && old(all) <= all
      ensures model.loop == M.Delivering(s.ref, p.msg) && M.After(old(model), [M.Accept(p)]) == Some(model)
      ensures if p.stream in old(streams) then s == old(streams)[p.stream] else fresh(s) && s.rx == [] && !s.closed
    {
      ghost var before := model;
      s := GetOrCreateStream(p.stream);
      Direct(s, p);
      AcceptRun(before, p);
    }

    /** The stream under an id, made on the spot for one the map does not hold. */
    method GetOrCreateStream(id: nat) returns (s: Stream)
      requires Valid()
      modifies this
      ensures Valid() && s.id == id && s in all && streams == old(streams)[id := s] && Inside(old(model))
      ensures id in old(streams) ==> s == old(streams)[id] && all == old(all) && model == old(model)
      ensures id !in old(streams) ==>
                fresh(s) && all == old(all) + [s] && s.rx == [] && !s.closed && model == Created(old(model), id)
    {
      MapInside();
      if id in streams {
        s := streams[id];
        AtItsRef(s);
      } else {
        s := Create(id);
      }
    }

    method Create(id: nat) returns (s: Stream)
      requires Valid()
      modifies this
      ensures Valid() && model == Created(old(model), id) && fresh(s) && s.id == id && s.rx == []
      ensures !s.closed && all == old(all) + [s] && streams == old(streams)[id := s]
    {
      s := new Stream(id, |all|, |For(model.inbox, id)|);
      all := all + [s];
      streams := streams[id := s];
      model := Created(model, id);
    }

    ghost method Direct(s: Stream, p: Packet)
      requires Valid() && p.stream in streams && streams[p.stream] == s && Inside(model)
      modifies this`model, s`model
      ensures Valid() && model == Directed(old(model), p) && model.loop == M.Delivering(s.ref, p.msg)
    {
      AtItsRef(s);
      s.model := s.model.(offered := s.model.offered + [p.msg]);
      model := Directed(model, p);
      ObjectsAfter(s);
    }

    /** Removal goes by id: what is closed is whatever the map held under it, be it the caller's
        own stream, a later one with the same id, or nothing. */
    method ForgetStream(id: nat)
      requires Valid()
      modifies this, if id in streams then {streams[id]} else {}
      ensures Valid() && all == old(all) && streams == old(streams) - {id}
      ensures id in old(streams) ==> old(streams)[id].closed && old(streams)[id].rx == old(streams[id].rx)
      ensures (forall i :: i in old(model).streams ==> old(model).streams[i] < |old(model).objs|)
      ensures model == Forgotten(old(model), id)
    {
      MapInside();
      if id in streams {
        CloseMapped(id);
      }
      streams := streams - {id};
      model := model.(streams := model.streams - {id});
    }

    method CloseMapped(id: nat)
      requires Valid() && id in streams && model.streams[id] < |model.objs|
      modifies this`model, streams[id]
      ensures Valid() && streams[id].closed && streams[id].rx == old(streams[id].rx)
      ensures model == old(model).(objs := M.Closed(old(model).objs, Some(old(model).streams[id])))
    {
      var s := streams[id];
      AtItsRef(s);
      s.Close();
      model := model.(objs := M.Closed(model.objs, Some(s.ref)));
      ObjectsAfter(s);
    }

    lemma MapInside()
      requires Valid()
      ensures Inside(model)
    {
      forall i | i in model.streams ensures model.streams[i] < |model.objs| {
        AtItsRef(streams[i]);
      }
    }

    /** `deliverFrame`: Go's select takes either ready case; with neither, the peer is told and the
        stream is forgotten. */
    method DeliverFrame(s: Stream, f: Message) returns (accepted: bool, ghost ls: seq<M.Label>)
      requires Valid() && s in all && model.loop == M.Delivering(s.ref, f)
      modifies this, s, if s.id in streams then {streams[s.id]} else {}
      ensures Valid() && all == old(all) && model.loop.Reading?
      ensures M.After(old(model), ls) == Some(model)
      ensures accepted ==> ls == [M.Enqueue] && s.rx == old(s.rx) + [f] && streams == old(streams)
      ensures !accepted ==> s.rx == old(s.rx)
      ensures !accepted && old(s.closed) ==> ls == [M.Drop] && streams == old(streams)
      ensures !accepted && !old(s.closed) ==>
                && ls == OverflowSteps() && |s.rx| >= M.STREAM_QUEUE_FRAMES && streams == old(streams) - {s.id}
                && (s.id in old(streams) ==> old(streams)[s.id].closed)
    {
      AtItsRef(s);
      if {
        case s.closed =>
          accepted, ls := false, [M.Drop];
          OneStep(model, M.Drop, model.(loop := M.Reading));
          model := model.(loop := M.Reading);
        case |s.rx| < M.STREAM_QUEUE_FRAMES =>
          accepted, ls := true, [M.Enqueue];
          OneStep(model, M.Enqueue, Enqueued(model));
          Push(s, f);
        case !s.closed && |s.rx| >= M.STREAM_QUEUE_FRAMES =>
          accepted, ls := false, OverflowSteps();
          Overflow(s);
      }
    }

    method Overflow(s: Stream)
      requires Valid() && s in all && model.loop.Delivering? && model.loop.ref == s.ref
      requires !s.closed && |s.rx| >= M.STREAM_QUEUE_FRAMES
      modifies this, if s.id in streams then {streams[s.id]} else {}
      ensures Valid() && all == old(all) && model.loop.Reading? && s.rx == old(s.rx)
      ensures M.After(old(model), OverflowSteps()) == Some(model)
      ensures streams == old(streams) - {s.id} && (s.id in old(streams) ==> old(streams)[s.id].closed)
    {
      AtItsRef(s);
      MapInside();
      OverflowRun(model);
      ghost var told := Shed(model, s.ref);
      ForgetStream(s.id);
      model := model.(loop := M.Reading, outbox := told.outbox, shed := told.shed);
    }

    method Push(s: Stream, f: Message)
      requires Valid() && s in all && model.loop == M.Delivering(s.ref, f) && M.Busy(model)
      modifies this`model, s
      ensures Valid() && model == Enqueued(old(model)) && s.rx == old(s.rx) + [f]
    {
      AtItsRef(s);
      s.rx := s.rx + [f];
      s.model := s.model.(rx := s.rx);
      model := Enqueued(model);
      ObjectsAfter(s);
    }

    /** The deferred `forgetStream` of a handler on its way out. */
    method EndHandler(s: Stream)
      requires Valid() && s in all && s.model.handler.Leaving?
      modifies this, s, if s.id in streams then {streams[s.id]} else {}
      ensures Valid() && all == old(all) && streams == old(streams) - {s.id} && s.model.handler.Gone?
      ensures s.id in old(streams) ==> old(streams)[s.id].closed
      ensures M.After(old(model), [M.HandlerForget(s.ref), M.HandlerClose(s.ref)]) == Some(model)
    {
      AtItsRef(s);
      MapInside();
      ghost var before := model;
      EndRun(before, s.ref);
      ForgetStream(s.id);
      Leave(s);
    }

    ghost method Leave(s: Stream)
      requires Valid() && s in all && s.ref < |model.objs|
      modifies this`model, s`model
      ensures Valid() && s.model.handler.Gone?
      ensures model == old(model).(objs := old(model).objs[s.ref := old(model).objs[s.ref].(handler := M.Gone)])
    {
      AtItsRef(s);
      s.model := s.model.(handler := M.Gone);
      model := model.(objs := model.objs[s.ref := model.objs[s.ref].(handler := M.Gone)]);
      ObjectsAfter(s);
    }

    /** `closeAllStreams`, after the read loop has gone. */
    method CloseAllStreams() returns (ghost ls: seq<M.Label>)
      requires Valid() && model.loop.Exited? && model.teardown.Up?
      modifies this, all
      ensures Valid() && all == old(all) && streams == map[] && model.teardown.Swept?
      ensures M.After(old(model), ls) == Some(model)
      ensures forall id :: id in old(streams) ==> old(streams)[id].closed
    {
      ghost var before := model;
      var list := Detach();
      ghost var mid := model;
      ghost var ms := Sweep(list);
      ls := [M.SwapAll(Numbers(list, RefOf))] + ms + [M.SweepDone];
      Joined(before, [M.SwapAll(Numbers(list, RefOf))], ms);
      Then(before, [M.SwapAll(Numbers(list, RefOf))] + ms, model, M.SweepDone, model.(teardown := M.Swept));
      model := model.(teardown := M.Swept);
    }

    method Detach() returns (list: seq<Stream>)
      requires Valid() && model.loop.Exited? && model.teardown.Up?
      modifies this
      ensures Valid() && all == old(all) && streams == map[]
      ensures Lists(list, old(streams)) && (forall s :: s in list ==> s in all)
      ensures model == Swapped(old(model), Numbers(list, RefOf))
      ensures M.After(old(model), [M.SwapAll(Numbers(list, RefOf))]) == Some(model)
    {
      list := ListOf(streams);
      NumbersOfTable(list, streams, model.streams, RefOf);
      SwapRun(model, Numbers(list, RefOf));
      assert forall s :: s in list ==> s in all;
      TakeMap(Numbers(list, RefOf));
    }

    method TakeMap(ghost order: seq<nat>)
      requires Valid()
      modifies this
      ensures Valid() && all == old(all) && streams == map[] && model == Swapped(old(model), order)
    {
      streams := map[];
      model := Swapped(model, order);
    }

    method Sweep(list: seq<Stream>) returns (ghost ms: seq<M.Label>)
      requires Valid() && streams == map[] && (forall s :: s in list ==> s in all)
      requires model.teardown == M.Sweeping(Numbers(list, RefOf))
      modifies this, all
      ensures Valid() && all == old(all) && streams == map[] && (forall s :: s in list ==> s.closed)
      ensures model.teardown == M.Sweeping([]) && M.After(old(model), ms) == Some(model)
    {
      ghost var before := model;
      ms := [];
      var i := 0;
      while i < |list|
        invariant 0 <= i <= |list| && all == old(all) && streams == map[] && Valid()
        invariant model.teardown == M.Sweeping(Numbers(list[i..], RefOf))
        invariant M.After(before, ms) == Some(model)
        invariant forall j :: 0 <= j < i ==> list[j].closed
      {
        assert list[i] in list;
        ghost var was := model;
        SweepOne(list[i], Numbers(list[i..], RefOf));
        Then(before, ms, was, M.SweepOne, model);
        ms := ms + [M.SweepOne];
        assert Numbers(list[i..], RefOf)[1..] == Numbers(list[i + 1..], RefOf);
        i := i + 1;
      }
      assert Numbers(list[i..], RefOf) == [];
    }

    method SweepOne(s: Stream, ghost rest: seq<nat>)
      requires Valid() && s in all && rest != [] && rest[0] == s.ref && model.teardown == M.Sweeping(rest)
      modifies this, s
      ensures Valid() && all == old(all) && streams == old(streams) && s.closed
      ensures model.teardown == M.Sweeping(rest[1..])
      ensures M.Enabled(old(model), M.SweepOne) && model == M.Apply(old(model), M.SweepOne)
    {
      AtItsRef(s);
      s.Close();
      model := model.(teardown := M.Sweeping(rest[1..]), objs := M.Closed(model.objs, Some(s.ref)));
    }
  }

  // ----- the stretches of steps the methods stand for -----

  ghost function RefOf(s: Stream): nat { s.ref }

  ghost predicate Inside(m: M.State) {
    forall i :: i in m.streams ==> m.streams[i] < |m.objs|
  }

  ghost function OverflowSteps(): seq<M.Label> {
    [M.Overflow, M.ShedReset, M.LoopForget, M.LoopClose]
  }

  ghost function Swapped(m: M.State, order: seq<nat>): M.State {
    m.(teardown := M.Sweeping(order), streams := map[])
  }

  ghost function Created(m: M.State, id: nat): M.State {
    m.(streams := m.streams[id := |m.objs|], objs := m.objs + [M.NewStream(id, |For(m.inbox, id)|)])
  }

  ghost function Directed(m: M.State, p: Packet): M.State
    requires Inside(m) && p.stream in m.streams
  {
    var r := m.streams[p.stream];
    m.(inbox := m.inbox + [p], loop := M.Delivering(r, p.msg),
       objs := m.objs[r := m.objs[r].(offered := m.objs[r].offered + [p.msg])])
  }

  ghost function Enqueued(m: M.State): M.State
    requires M.Busy(m)
  {
    var o := m.objs[m.loop.ref];
    m.(loop := M.Reading, objs := m.objs[m.loop.ref := o.(rx := o.rx + [m.loop.msg])])
  }

  ghost function Forgotten(m: M.State, id: nat): M.State
    requires Inside(m)
  {
    m.(streams := m.streams - {id}, objs := M.Closed(m.objs, M.At(m.streams, id)))
  }

  ghost function Ended(m: M.State, r: nat): M.State
    requires Inside(m) && r < |m.objs|
  {
    var n := Forgotten(m, m.objs[r].id);
    n.(objs := n.objs[r := n.objs[r].(handler := M.Gone)])
  }

  lemma Then(s: M.State, ls: seq<M.Label>, m: M.State, l: M.Label, n: M.State)
    requires M.After(s, ls) == Some(m) && M.Enabled(m, l) && M.Apply(m, l) == n
    ensures M.After(s, ls + [l]) == Some(n)
  {
    assert (ls + [l])[..|ls|] == ls;
  }

  lemma {:induction false} Joined(s: M.State, ls: seq<M.Label>, ms: seq<M.Label>)
    requires M.After(s, ls).Some? && M.After(M.After(s, ls).value, ms).Some?
    ensures M.After(s, ls + ms) == M.After(M.After(s, ls).value, ms)
  {
    if ms == [] {
      assert ls + ms == ls;
    } else {
      var n := |ms| - 1;
      Joined(s, ls, ms[..n]);
      assert (ls + ms)[..|ls + ms| - 1] == ls + ms[..n];
    }
  }

  lemma OneStep(m: M.State, l: M.Label, n: M.State)
    requires M.Enabled(m, l) && M.Apply(m, l) == n
    ensures M.After(m, [l]) == Some(n)
  {
    Then(m, [], m, l, n);
    assert [] + [l] == [l];
  }

  lemma SwapRun(m: M.State, order: seq<nat>)
    requires m.loop.Exited? && m.teardown.Up? && |order| == |m.streams|
    requires forall r :: r in order <==> r in m.streams.Values
    ensures M.After(m, [M.SwapAll(order)]) == Some(Swapped(m, order))
  {
    OneStep(m, M.SwapAll(order), Swapped(m, order));
  }

  lemma AcceptRun(m: M.State, p: Packet)
    requires Inside(m) && m.loop.Reading?
    ensures var n := if p.stream in m.streams then m else Created(m, p.stream);
            && Inside(n) && Directed(n, p) == M.Accepting(m, p)
            && M.After(m, [M.Accept(p)]) == Some(Directed(n, p))
  {
    var n := if p.stream in m.streams then m else Created(m, p.stream);
    assert n.streams == m.streams[p.stream := n.streams[p.stream]];
    OneStep(m, M.Accept(p), M.Accepting(m, p));
  }

  /** The peer told of the full queue, and nothing yet forgotten. */
  ghost function Shed(m: M.State, r: nat): M.State
    requires r < |m.objs|
  {
    m.(outbox := m.outbox + [Packet(m.objs[r].id, Rst)],
       shed := if r in m.shed then m.shed else m.shed[r := |m.objs[r].sent|])
  }

  lemma ShedRun(m: M.State)
    requires M.Enabled(m, M.Overflow)
    ensures M.After(m, [M.Overflow, M.ShedReset]) == Some(Shed(m, m.loop.ref).(loop := M.Forgetting(m.loop.ref)))
  {
    var a := m.(loop := M.Shedding(m.loop.ref));
    OneStep(m, M.Overflow, a);
    OneStep(a, M.ShedReset, Shed(m, m.loop.ref).(loop := M.Forgetting(m.loop.ref)));
    Joined(m, [M.Overflow], [M.ShedReset]);
  }

  lemma ForgetRun(m: M.State)
    requires Inside(m) && M.Enabled(m, M.LoopForget)
    ensures M.After(m, [M.LoopForget, M.LoopClose]) == Some(Forgotten(m, m.objs[m.loop.ref].id).(loop := M.Reading))
  {
    var id := m.objs[m.loop.ref].id;
    var b := m.(loop := M.Closing(M.At(m.streams, id)), streams := m.streams - {id});
    OneStep(m, M.LoopForget, b);
    OneStep(b, M.LoopClose, b.(loop := M.Reading, objs := M.Closed(m.objs, M.At(m.streams, id))));
    Joined(m, [M.LoopForget], [M.LoopClose]);
  }

  lemma OverflowRun(m: M.State)
    requires Inside(m) && M.Enabled(m, M.Overflow)
    ensures var id := m.objs[m.loop.ref].id;
            M.After(m, OverflowSteps()) == Some(Forgotten(Shed(m, m.loop.ref), id).(loop := M.Reading))
  {
    var a := Shed(m, m.loop.ref).(loop := M.Forgetting(m.loop.ref));
    ShedRun(m);
    ForgetRun(a);
    Joined(m, [M.Overflow, M.ShedReset], [M.LoopForget, M.LoopClose]);
    assert OverflowSteps() == [M.Overflow, M.ShedReset] + [M.LoopForget, M.LoopClose];
  }

  lemma CloseThenLeave(objs: seq<M.Stream>, r: nat, h: M.Handler, t: Option<nat>)
    requires r < |objs| && (t.Some? ==> t.value < |objs|)
    ensures var with := M.Closed(objs[r := objs[r].(handler := h)], t);
            var without := M.Closed(objs, t);
            with[r := with[r].(handler := M.Gone)] == without[r := without[r].(handler := M.Gone)]
  {
  }

  /** A handler that has emptied its place in the map and not yet closed what it found there. */
  ghost function Emptied(m: M.State, r: nat): M.State
    requires r < |m.objs|
  {
    var o := m.objs[r];
    m.(objs := m.objs[r := o.(handler := M.Removing(M.At(m.streams, o.id)))], streams := m.streams - {o.id})
  }

  lemma EmptyRun(m: M.State, r: nat)
    requires r < |m.objs| && m.objs[r].handler.Leaving?
    ensures M.After(m, [M.HandlerForget(r)]) == Some(Emptied(m, r))
  {
    OneStep(m, M.HandlerForget(r), Emptied(m, r));
  }

  lemma FinishRun(m: M.State, r: nat)
    requires Inside(m) && r < |m.objs|
    ensures M.After(Emptied(m, r), [M.HandlerClose(r)]) == Some(Ended(m, r))
  {
    var t := M.At(m.streams, m.objs[r].id);
    CloseThenLeave(m.objs, r, M.Removing(t), t);
    OneStep(Emptied(m, r), M.HandlerClose(r), Ended(m, r));
  }

  lemma EndRun(m: M.State, r: nat)
    requires Inside(m) && r < |m.objs| && m.objs[r].handler.Leaving?
    ensures M.After(m, [M.HandlerForget(r), M.HandlerClose(r)]) == Some(Ended(m, r))
  {
    EmptyRun(m, r);
    FinishRun(m, r);
    Joined(m, [M.HandlerForget(r)], [M.HandlerClose(r)]);
  }
}
