/** The gateway's table of agents. Every connection has a read loop, a goroutine that waits for
    its closedCh, and a heartbeat goroutine; any of them may remove it, and they are interleaved
    with new registrations under the same uuid in every possible way. */
module Registry {
  import opened Options

  /** The heartbeat goroutine removes first and closes afterwards. */
  datatype Heartbeat = Watching | Removed | Ended

  datatype Conn = Conn(uuid: string, closed: bool, heartbeat: Heartbeat, watcherDone: bool)

  datatype State = State(agents: map<string, nat>, conns: seq<Conn>, rejected: seq<string>)

  datatype Label =
    | Register(uuid: string)
    | LoopExit(c: nat)          // the read loop ends and closes the connection
    | HeartbeatRemove(c: nat)
    | HeartbeatClose(c: nat)
    | HeartbeatStop(c: nat)     // it sees closedCh instead
    | WatcherRemove(c: nat)

  const Init := State(map[], [], [])

  predicate Enabled(s: State, l: Label) {
    match l
    case Register(_) => true
    case LoopExit(c) => c < |s.conns|
    case HeartbeatRemove(c) => c < |s.conns| && s.conns[c].heartbeat.Watching?
    case HeartbeatClose(c) => c < |s.conns| && s.conns[c].heartbeat.Removed?
    case HeartbeatStop(c) => c < |s.conns| && s.conns[c].heartbeat.Watching? && s.conns[c].closed
    case WatcherRemove(c) => c < |s.conns| && s.conns[c].closed && !s.conns[c].watcherDone
  }

  /** `removeAgentIfMatch`: only the very connection is removed. */
  function RemoveIfMatch(agents: map<string, nat>, uuid: string, c: nat): map<string, nat> {
    if uuid in agents && agents[uuid] == c then agents - {uuid} else agents
  }

  function Apply(s: State, l: Label): State
    requires Enabled(s, l)
  {
    match l
    case Register(uuid) =>
      if uuid in s.agents then s.(rejected := s.rejected + [uuid])
      else s.(agents := s.agents[uuid := |s.conns|], conns := s.conns + [Conn(uuid, false, Watching, false)])
    case LoopExit(c) => s.(conns := s.conns[c := s.conns[c].(closed := true)])
    case HeartbeatRemove(c) =>
      s.(agents := RemoveIfMatch(s.agents, s.conns[c].uuid, c),
         conns := s.conns[c := s.conns[c].(heartbeat := Removed)])
    case HeartbeatClose(c) => s.(conns := s.conns[c := s.conns[c].(closed := true, heartbeat := Ended)])
    case HeartbeatStop(c) => s.(conns := s.conns[c := s.conns[c].(heartbeat := Ended)])
    case WatcherRemove(c) =>
      s.(agents := RemoveIfMatch(s.agents, s.conns[c].uuid, c),
         conns := s.conns[c := s.conns[c].(watcherDone := true)])
  }

  function After(s: State, ls: seq<Label>): Option<State> {
    if ls == [] then Some(s)
    else
      match After(s, ls[..|ls| - 1])
      case None => None
      case Some(m) => if Enabled(m, ls[|ls| - 1]) then Some(Apply(m, ls[|ls| - 1])) else None
  }

  predicate Listed(s: State, c: nat)
    requires c < |s.conns|
  {
    s.conns[c].uuid in s.agents && s.agents[s.conns[c].uuid] == c
  }

  /** Neither closed nor condemned by its heartbeat. */
  predicate Live(s: State, c: nat)
    requires c < |s.conns|
  {
    !s.conns[c].closed && !s.conns[c].heartbeat.Removed?
  }

  ghost predicate Wf(s: State) {
    forall u :: u in s.agents ==> s.agents[u] < |s.conns| && s.conns[s.agents[u]].uuid == u
  }

  ghost predicate ConnOk(s: State, c: nat)
    requires c < |s.conns|
  {
    && (Live(s, c) ==> Listed(s, c))
    && (s.conns[c].heartbeat.Removed? ==> !Listed(s, c))
    && (s.conns[c].heartbeat.Ended? || s.conns[c].watcherDone ==> s.conns[c].closed)
    && (s.conns[c].watcherDone ==> !Listed(s, c))
  }

  ghost predicate Inv(s: State) {
    Wf(s) && forall c :: 0 <= c < |s.conns| ==> ConnOk(s, c)
  }

  /** A connection leaves the table only by its own removal, and never comes back. */
  lemma ListedStep(s: State, l: Label, c: nat)
    requires Wf(s) && Enabled(s, l) && c < |s.conns|
    ensures c < |Apply(s, l).conns| && Apply(s, l).conns[c].uuid == s.conns[c].uuid
    ensures Listed(Apply(s, l), c) <==> Listed(s, c) && l != HeartbeatRemove(c) && l != WatcherRemove(c)
  {
  }

  lemma InvStep(s: State, l: Label)
    requires Inv(s) && Enabled(s, l)
    ensures Inv(Apply(s, l))
  {
    var t := Apply(s, l);
    forall c | 0 <= c < |t.conns| ensures ConnOk(t, c) {
      if c < |s.conns| {
        assert ConnOk(s, c);
        ListedStep(s, l, c);
      }
    }
  }

  lemma {:induction false} InvRun(ls: seq<Label>)
    requires After(Init, ls).Some?
    ensures Inv(After(Init, ls).value)
  {
    if ls == [] {
    } else {
      InvRun(ls[..|ls| - 1]);
      InvStep(After(Init, ls[..|ls| - 1]).value, ls[|ls| - 1]);
    }
  }

  /** In every run, a uuid has at most one live connection, and that one is the one clients reach. */
  lemma OneLiveConnectionPerUuid(ls: seq<Label>, s: State, c: nat, d: nat)
    requires After(Init, ls) == Some(s) && c < |s.conns| && d < |s.conns| && s.conns[c].uuid == s.conns[d].uuid
    requires Live(s, c) && Live(s, d)
    ensures c == d && Listed(s, c)
  {
    InvRun(ls);
    assert ConnOk(s, c) && ConnOk(s, d);
  }

  /** Live cannot be weakened to open: between its heartbeat's removal and its closing, a condemned
      connection overlaps with a successor. */
  lemma CondemnedMayOverlap(uuid: string) returns (ls: seq<Label>)
    ensures After(Init, ls).Some?
    ensures var s := After(Init, ls).value;
            && |s.conns| == 2 && s.conns[0].uuid == s.conns[1].uuid == uuid
            && !s.conns[0].closed && !s.conns[1].closed && Listed(s, 1)
  {
    ls := [Register(uuid), HeartbeatRemove(0), Register(uuid)];
    assert ls[..2] == [Register(uuid), HeartbeatRemove(0)] && ls[..2][..1] == [Register(uuid)] && ls[..1][..0] == [];
    var s1 := Apply(Init, Register(uuid));
    assert After(Init, ls[..2][..1]) == Some(s1);
    var s2 := Apply(s1, HeartbeatRemove(0));
    assert After(Init, ls[..2]) == Some(s2);
    assert s2.agents == map[];
    assert After(Init, ls) == Some(Apply(s2, Register(uuid)));
  }

  /** A connection that has a successor is not live. */
  ghost predicate Succeeded(s: State) {
    forall c, d :: 0 <= c < d < |s.conns| && s.conns[c].uuid == s.conns[d].uuid ==> !Live(s, c)
  }

  lemma SucceededStep(s: State, l: Label)
    requires Inv(s) && Succeeded(s) && Enabled(s, l)
    ensures Succeeded(Apply(s, l))
  {
    var t := Apply(s, l);
    forall c, d | 0 <= c < d < |t.conns| && t.conns[c].uuid == t.conns[d].uuid ensures !Live(t, c) {
      assert ConnOk(s, c);
      assert t.conns[c].uuid == s.conns[c].uuid && (Live(t, c) ==> Live(s, c));
      if d < |s.conns| { assert t.conns[d].uuid == s.conns[d].uuid; }
    }
  }

  lemma {:induction false} SucceededRun(ls: seq<Label>)
    requires After(Init, ls).Some?
    ensures Succeeded(After(Init, ls).value)
  {
    if ls == [] {
    } else {
      var n := |ls| - 1;
      SucceededRun(ls[..n]);
      InvRun(ls[..n]);
      SucceededStep(After(Init, ls[..n]).value, ls[n]);
    }
  }

  /** When two connections of a uuid are open, the heartbeat has removed the older one and is about
      to close it. */
  lemma OverlapIsCondemned(ls: seq<Label>, s: State, c: nat, d: nat)
    requires After(Init, ls) == Some(s) && c < d < |s.conns| && s.conns[c].uuid == s.conns[d].uuid
    requires !s.conns[c].closed
    ensures s.conns[c].heartbeat.Removed? && Enabled(s, HeartbeatClose(c))
  {
    SucceededRun(ls);
    assert !Live(s, c);
  }

  /** And from every reachable state: another connection opens beside an open one by registering its
      uuid if and only if the heartbeat has removed the open one and nobody took its place. */
  lemma OverlapsExactlyWhen(ls: seq<Label>, s: State, c: nat)
    requires After(Init, ls) == Some(s) && c < |s.conns| && !s.conns[c].closed
    ensures var uuid := s.conns[c].uuid;
            var t := Apply(s, Register(uuid));
            (|t.conns| == |s.conns| + 1 && t.conns[|s.conns|].uuid == uuid
             && !t.conns[|s.conns|].closed && !t.conns[c].closed) <==>
            s.conns[c].heartbeat.Removed? && uuid !in s.agents
  {
    InvRun(ls);
    assert ConnOk(s, c);
  }

  /** A registration is refused exactly when the uuid is in the table; it then changes nothing
      there, and otherwise it adds just itself. No live connection is displaced either way. */
  lemma RegisterNeverDisplaces(ls: seq<Label>, s: State, uuid: string)
    requires After(Init, ls) == Some(s)
    ensures var t := Apply(s, Register(uuid));
            && (uuid in s.agents <==> |t.conns| == |s.conns|)
            && (uuid in s.agents ==> t.agents == s.agents && t.rejected == s.rejected + [uuid])
            && (forall c :: 0 <= c < |s.conns| && Live(s, c) ==> Live(t, c) && Listed(t, c))
            && (uuid !in s.agents ==> Live(t, |s.conns|) && Listed(t, |s.conns|))
  {
    InvRun(ls);
    var t := Apply(s, Register(uuid));
    InvStep(s, Register(uuid));
    forall c | 0 <= c < |s.conns| && Live(s, c) ensures Live(t, c) && Listed(t, c) {
      assert ConnOk(t, c);
    }
  }

  /** However late an old connection's removal comes, it does not touch its successor. */
  lemma LateRemovalSparesOthers(s: State, l: Label, c: nat, d: nat)
    requires Wf(s) && c < |s.conns| && d < |s.conns| && c != d
    requires (l == HeartbeatRemove(c) || l == WatcherRemove(c)) && Enabled(s, l)
    ensures Listed(Apply(s, l), d) <==> Listed(s, d)
  {
    ListedStep(s, l, d);
  }

  /** A closed connection's own goroutine can always remove it, and once it has, or the heartbeat
      has, no run brings it back. */
  lemma {:induction false} RemovedForGood(s: State, ls: seq<Label>, c: nat)
    requires Wf(s) && c < |s.conns| && !Listed(s, c) && After(s, ls).Some?
    ensures var t := After(s, ls).value; Wf(t) && c < |t.conns| && !Listed(t, c)
  {
    if ls == [] {
    } else {
      var n := |ls| - 1;
      RemovedForGood(s, ls[..n], c);
      var m := After(s, ls[..n]).value;
      WfStep(m, ls[n]);
      ListedStep(m, ls[n], c);
    }
  }

  lemma WfStep(s: State, l: Label)
    requires Wf(s) && Enabled(s, l)
    ensures Wf(Apply(s, l))
  {
    var t := Apply(s, l);
    forall u | u in t.agents ensures t.agents[u] < |t.conns| && t.conns[t.agents[u]].uuid == u {
      if u in s.agents && t.agents[u] == s.agents[u] { ListedStep(s, l, s.agents[u]); }
    }
  }

  lemma ClosedStays(s: State, l: Label, c: nat)
    requires Enabled(s, l) && c < |s.conns|
    ensures c < |Apply(s, l).conns| && (s.conns[c].closed ==> Apply(s, l).conns[c].closed)
    ensures s.conns[c].watcherDone || l == WatcherRemove(c) ==> Apply(s, l).conns[c].watcherDone
  {
  }

  /** A closed connection has a goroutine that can always go and remove it. Once that has run, in
      whatever company of other steps, the connection is off the table; so in a run that has nothing
      left to do for closed connections, every closed connection is absent. */
  lemma {:induction false} ClosedIsRemoved(ls: seq<Label>, s: State, more: seq<Label>, c: nat)
    requires After(Init, ls) == Some(s) && c < |s.conns| && s.conns[c].closed && After(s, more).Some?
    ensures Enabled(s, WatcherRemove(c)) || s.conns[c].watcherDone
    ensures var t := After(s, more).value;
            && c < |t.conns| && t.conns[c].closed && Inv(t)
            && (WatcherRemove(c) in more || !Enabled(t, WatcherRemove(c)) ==> !Listed(t, c))
            && (WatcherRemove(c) in more || s.conns[c].watcherDone ==> t.conns[c].watcherDone)
  {
    InvRun(ls);
    if more == [] {
      assert ConnOk(s, c);
    } else {
      var n := |more| - 1;
      ClosedIsRemoved(ls, s, more[..n], c);
      var m := After(s, more[..n]).value;
      ClosedStays(m, more[n], c);
      InvStep(m, more[n]);
      assert ConnOk(After(s, more).value, c);
      assert more == more[..n] + [more[n]];
    }
  }

  // ----- the server object -----

  /** `Server` as far as registration goes. Connections are numbered in order of creation. */
  class Server {
    var agentByUUID: map<string, nat>
    var created: nat
    ghost var state: State

    ghost predicate Valid()
      reads this
    {
      Wf(state) && state.agents == agentByUUID && |state.conns| == created
    }

    constructor ()
      ensures Valid() && state == Init
    {
      agentByUUID := map[];
      created := 0;
      state := Init;
    }

    /** The locked part of `handleRegister`; None is the refusal with code 4009. */
    method Register(uuid: string) returns (c: Option<nat>)
      requires Valid()
      modifies this
      ensures Valid() && state == Apply(old(state), Label.Register(uuid))
      ensures c.None? <==> uuid in old(state).agents
      ensures c.Some? ==> c.value < |state.conns| && Listed(state, c.value) && Live(state, c.value)
    {
      state := Apply(state, Label.Register(uuid));
      if uuid in agentByUUID {
        return None;
      }
      c := Some(created);
      agentByUUID := agentByUUID[uuid := created];
      created := created + 1;
    }

    method RemoveAgentIfMatch(uuid: string, c: nat) returns (removed: bool)
      requires Valid() && c < created && uuid == state.conns[c].uuid
      modifies this
      ensures agentByUUID == RemoveIfMatch(old(agentByUUID), uuid, c)
      ensures removed <==> old(Listed(state, c))
      ensures state == old(state).(agents := agentByUUID) && Valid() && !Listed(state, c)
      ensures forall d :: 0 <= d < |state.conns| && d != c ==> (Listed(state, d) <==> old(Listed(state, d)))
    {
      removed := false;
      if uuid in agentByUUID && agentByUUID[uuid] == c {
        agentByUUID := agentByUUID - {uuid};
        removed := true;
      }
      state := state.(agents := agentByUUID);
    }

    method GetAgent(uuid: string) returns (c: Option<nat>)
      requires Valid()
      ensures c.Some? <==> uuid in state.agents
      ensures c.Some? ==> c.value < |state.conns| && state.conns[c.value].uuid == uuid && Listed(state, c.value)
    {
      c := if uuid in agentByUUID then Some(agentByUUID[uuid]) else None;
    }
  }
}
