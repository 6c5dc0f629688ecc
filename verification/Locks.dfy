/** The locks of the gateway, the routines that take them, and why no combination of goroutines
    running these routines can deadlock. A `sync.Once` counts as a lock held while its function
    runs: every other caller waits for it. */
module Locks {
  import opened Options

  datatype Lock =
    | Registry
    | ConnOnce(c: nat)
    | HandlerOnce(c: nat, s: nat)   // the closeOnce of a WebSocket handler
    | StreamOnce(c: nat, s: nat)
    | StreamMap(c: nat)
    | StreamErr(c: nat, s: nat)
    | Writer(c: nat)

  function Rank(l: Lock): nat {
    match l
    case Registry => 0
    case ConnOnce(_) => 1
    case HandlerOnce(_, _) => 2
    case StreamOnce(_, _) => 3
    case StreamMap(_) => 4
    case StreamErr(_, _) => 4
    case Writer(_) => 4
  }

  datatype Op = Acquire(l: Lock) | Release(l: Lock)

  // ----- the routines, as the locks they take -----

  /** A stream in the list of a connection's close; it may have been closed before. */
  datatype Found = Found(s: nat, again: bool)

  /** What one call takes and gives back. `again` marks a `Do` on a once that has run already. */
  datatype Routine =
    | HandleRegister
    | RemoveAgentIfMatch
    | GetAgent
    | Status(conns: seq<nat>)
    | NewStream(c: nat)
    | GetStream(c: nat)
    | ForgetStream(c: nat)
    | WriteFrame(c: nat)
    | CloseErr(c: nat, s: nat)
    | CloseStream(c: nat, s: nat, again: bool)   // closeWithErr and resetWithErr of a stream
    | CloseConn(c: nat, found: seq<Found>, again: bool)
    | SendClose(c: nat, s: nat, sends: bool, again: bool)              // a framed relay's close
    | RawClose(c: nat, s: nat, sends: bool, closed: bool, again: bool) // a raw relay's reset and close

  function Briefly(l: Lock): seq<Op> { [Acquire(l), Release(l)] }

  function StreamSection(c: nat, s: nat): seq<Op> {
    [Acquire(StreamOnce(c, s))] + Briefly(StreamErr(c, s)) + Briefly(StreamMap(c)) + [Release(StreamOnce(c, s))]
  }

  /** A send takes the writer's lock unless it finds the stream closed. */
  function Sending(c: nat, sends: bool): seq<Op> { if sends then Briefly(Writer(c)) else [] }

  function Closing(c: nat, s: nat, again: bool): seq<Op> {
    if again then Briefly(StreamOnce(c, s)) else StreamSection(c, s)
  }

  /** The calls made one after another for a list of connections, respectively of streams. */
  function CountStreams(conns: seq<nat>): seq<Op> {
    if conns == [] then [] else Briefly(StreamMap(conns[0])) + CountStreams(conns[1..])
  }

  function Sweep(c: nat, found: seq<Found>): seq<Op> {
    if found == [] then [] else Closing(c, found[0].s, found[0].again) + Sweep(c, found[1..])
  }

  function Code(r: Routine): seq<Op> {
    match r
    case HandleRegister | RemoveAgentIfMatch | GetAgent => Briefly(Registry)
    case Status(conns) => [Acquire(Registry)] + CountStreams(conns) + [Release(Registry)]
    case NewStream(c) => Briefly(StreamMap(c))
    case GetStream(c) => Briefly(StreamMap(c))
    case ForgetStream(c) => Briefly(StreamMap(c))
    case WriteFrame(c) => Briefly(Writer(c))
    case CloseErr(c, s) => Briefly(StreamErr(c, s))
    case CloseStream(c, s, again) => Closing(c, s, again)
    case CloseConn(c, found, again) =>
      if again then Briefly(ConnOnce(c))
      else [Acquire(ConnOnce(c))] + Briefly(StreamMap(c)) + Sweep(c, found) + [Release(ConnOnce(c))]
    case SendClose(c, s, sends, again) =>
      [Acquire(HandlerOnce(c, s))] + (if again then [] else Sending(c, sends)) + [Release(HandlerOnce(c, s))]
    case RawClose(c, s, sends, closed, again) =>
      [Acquire(HandlerOnce(c, s))] + (if again then [] else Sending(c, sends) + Closing(c, s, closed))
      + [Release(HandlerOnce(c, s))]
  }

  /** A goroutine is any sequence of such calls. */
  function Program(rs: seq<Routine>): seq<Op> {
    if rs == [] then [] else Code(rs[0]) + Program(rs[1..])
  }

  // ----- taking locks in order of rank -----

  /** The locks held after `p` when it only ever takes locks of higher rank than those it holds. */
  ghost function Holding(held: set<Lock>, p: seq<Op>): Option<set<Lock>>
    decreases |p|
  {
    if p == [] then Some(held)
    else
      match p[0]
      case Acquire(l) =>
        if forall h :: h in held ==> Rank(h) < Rank(l) then Holding(held + {l}, p[1..]) else None
      case Release(l) =>
        if l in held then Holding(held - {l}, p[1..]) else None
  }

  lemma {:induction false} HoldingConcat(held: set<Lock>, p: seq<Op>, q: seq<Op>)
    requires Holding(held, p).Some?
    ensures Holding(held, p + q) == Holding(Holding(held, p).value, q)
    decreases |p|
  {
    if p == [] {
      assert p + q == q;
    } else {
      assert (p + q)[1..] == p[1..] + q;
      match p[0]
      case Acquire(l) => HoldingConcat(held + {l}, p[1..], q);
      case Release(l) => HoldingConcat(held - {l}, p[1..], q);
    }
  }

  lemma BrieflyRanked(held: set<Lock>, l: Lock)
    requires forall h :: h in held ==> Rank(h) < Rank(l)
    ensures Holding(held, Briefly(l)) == Some(held)
  {
    assert held + {l} - {l} == held;
    assert Briefly(l)[1..] == [Release(l)];
    assert Holding(held + {l}, [Release(l)]) == Some(held + {l} - {l});
  }

  lemma SectionRanked(held: set<Lock>, l: Lock, p: seq<Op>)
    requires forall h :: h in held ==> Rank(h) < Rank(l)
    requires Holding(held + {l}, p) == Some(held + {l})
    ensures Holding(held, [Acquire(l)] + p + [Release(l)]) == Some(held)
  {
    var q := [Acquire(l)] + p + [Release(l)];
    assert q[1..] == p + [Release(l)];
    HoldingConcat(held + {l}, p, [Release(l)]);
    assert held + {l} - {l} == held;
  }

  lemma StreamSectionRanked(held: set<Lock>, c: nat, s: nat)
    requires forall h :: h in held ==> Rank(h) < 3
    ensures Holding(held, StreamSection(c, s)) == Some(held)
  {
    var l := StreamOnce(c, s);
    BrieflyRanked(held + {l}, StreamErr(c, s));
    BrieflyRanked(held + {l}, StreamMap(c));
    HoldingConcat(held + {l}, Briefly(StreamErr(c, s)), Briefly(StreamMap(c)));
    SectionRanked(held, l, Briefly(StreamErr(c, s)) + Briefly(StreamMap(c)));
    assert StreamSection(c, s) == [Acquire(l)] + (Briefly(StreamErr(c, s)) + Briefly(StreamMap(c))) + [Release(l)];
  }

  lemma {:induction false} SweepRanked(held: set<Lock>, c: nat, found: seq<Found>)
    requires forall h :: h in held ==> Rank(h) < 3
    ensures Holding(held, Sweep(c, found)) == Some(held)
  {
    if found == [] {
    } else {
      ClosingRanked(held, c, found[0].s, found[0].again);
      SweepRanked(held, c, found[1..]);
      HoldingConcat(held, Closing(c, found[0].s, found[0].again), Sweep(c, found[1..]));
    }
  }

  lemma {:induction false} CountRanked(held: set<Lock>, conns: seq<nat>)
    requires forall h :: h in held ==> Rank(h) < 4
    ensures Holding(held, CountStreams(conns)) == Some(held)
  {
    if conns == [] {
    } else {
      BrieflyRanked(held, StreamMap(conns[0]));
      CountRanked(held, conns[1..]);
      HoldingConcat(held, Briefly(StreamMap(conns[0])), CountStreams(conns[1..]));
    }
  }

  /** A goroutine holding nothing that runs `p` under a lock. */
  lemma UnderLock(l: Lock, p: seq<Op>)
    requires Holding({l}, p) == Some({l})
    ensures Holding({}, [Acquire(l)] + p + [Release(l)]) == Some({})
  {
    assert {} + {l} == {l};
    SectionRanked({}, l, p);
  }

  lemma SweepUnderLock(c: nat, found: seq<Found>)
    ensures Holding({ConnOnce(c)}, Briefly(StreamMap(c)) + Sweep(c, found)) == Some({ConnOnce(c)})
  {
    BrieflyRanked({ConnOnce(c)}, StreamMap(c));
    SweepRanked({ConnOnce(c)}, c, found);
    HoldingConcat({ConnOnce(c)}, Briefly(StreamMap(c)), Sweep(c, found));
  }

  lemma CloseConnRanked(c: nat, found: seq<Found>)
    ensures Holding({}, Code(CloseConn(c, found, false))) == Some({})
  {
    var l, p := ConnOnce(c), Briefly(StreamMap(c)) + Sweep(c, found);
    SweepUnderLock(c, found);
    UnderLock(l, p);
    assert Code(CloseConn(c, found, false)) == [Acquire(l)] + p + [Release(l)];
  }

  lemma ClosingRanked(held: set<Lock>, c: nat, s: nat, again: bool)
    requires forall h :: h in held ==> Rank(h) < 3
    ensures Holding(held, Closing(c, s, again)) == Some(held)
  {
    BrieflyRanked(held, StreamOnce(c, s));
    StreamSectionRanked(held, c, s);
  }

  lemma SendingRanked(held: set<Lock>, c: nat, sends: bool)
    requires forall h :: h in held ==> Rank(h) < 4
    ensures Holding(held, Sending(c, sends)) == Some(held)
  {
    BrieflyRanked(held, Writer(c));
  }

  lemma RawCloseRanked(c: nat, s: nat, sends: bool, closed: bool)
    ensures var l := HandlerOnce(c, s); Holding({l}, Sending(c, sends) + Closing(c, s, closed)) == Some({l})
  {
    var l := HandlerOnce(c, s);
    SendingRanked({l}, c, sends);
    ClosingRanked({l}, c, s, closed);
    HoldingConcat({l}, Sending(c, sends), Closing(c, s, closed));
  }

  /** Every routine takes its locks in order of rank and gives all of them back. */
  lemma CodeRanked(r: Routine)
    ensures Holding({}, Code(r)) == Some({})
  {
    match r
    case HandleRegister | RemoveAgentIfMatch | GetAgent => BrieflyRanked({}, Registry);
    case Status(conns) =>
      CountRanked({Registry}, conns);
      UnderLock(Registry, CountStreams(conns));
    case NewStream(c) => BrieflyRanked({}, StreamMap(c));
    case GetStream(c) => BrieflyRanked({}, StreamMap(c));
    case ForgetStream(c) => BrieflyRanked({}, StreamMap(c));
    case WriteFrame(c) => BrieflyRanked({}, Writer(c));
    case CloseErr(c, s) => BrieflyRanked({}, StreamErr(c, s));
    case CloseStream(c, s, again) => ClosingRanked({}, c, s, again);
    case CloseConn(c, found, again) => BrieflyRanked({}, ConnOnce(c)); CloseConnRanked(c, found);
    case SendClose(c, s, sends, again) =>
      SendingRanked({HandlerOnce(c, s)}, c, sends);
      UnderLock(HandlerOnce(c, s), if again then [] else Sending(c, sends));
    case RawClose(c, s, sends, closed, again) =>
      RawCloseRanked(c, s, sends, closed);
      UnderLock(HandlerOnce(c, s), if again then [] else Sending(c, sends) + Closing(c, s, closed));
  }

  lemma {:induction false} ProgramRanked(rs: seq<Routine>)
    ensures Holding({}, Program(rs)) == Some({})
  {
    if rs == [] {
    } else {
      CodeRanked(rs[0]);
      ProgramRanked(rs[1..]);
      HoldingConcat({}, Code(rs[0]), Program(rs[1..]));
    }
  }

  // ----- goroutines -----

  datatype Thread = Thread(held: set<Lock>, todo: seq<Op>)

  datatype Label = Spawn(rs: seq<Routine>) | Step(i: nat)

  predicate CanStep(ts: seq<Thread>, i: nat) {
    && i < |ts| && ts[i].todo != []
    && (ts[i].todo[0].Acquire? ==> forall j :: 0 <= j < |ts| ==> ts[i].todo[0].l !in ts[j].held)
  }

  predicate Enabled(ts: seq<Thread>, l: Label) {
    l.Step? ==> CanStep(ts, l.i)
  }

  function Apply(ts: seq<Thread>, l: Label): seq<Thread>
    requires Enabled(ts, l)
  {
    match l
    case Spawn(rs) => ts + [Thread({}, Program(rs))]
    case Step(i) =>
      var t := ts[i];
      var op := t.todo[0];
      ts[i := Thread(if op.Acquire? then t.held + {op.l} else t.held - {op.l}, t.todo[1..])]
  }

  ghost function After(ls: seq<Label>): Option<seq<Thread>> {
    if ls == [] then Some([])
    else
      match After(ls[..|ls| - 1])
      case None => None
      case Some(ts) => if Enabled(ts, ls[|ls| - 1]) then Some(Apply(ts, ls[|ls| - 1])) else None
  }

  /** What each goroutine still has to do respects the ranks of what it holds, and no lock is held twice. */
  ghost predicate Orderly(ts: seq<Thread>) {
    && (forall i :: 0 <= i < |ts| ==> Holding(ts[i].held, ts[i].todo) == Some({}))
    && (forall i, j :: 0 <= i < j < |ts| ==> ts[i].held !! ts[j].held)
  }

  lemma OrderlyStep(ts: seq<Thread>, l: Label)
    requires Orderly(ts) && Enabled(ts, l)
    ensures Orderly(Apply(ts, l))
  {
    if l.Spawn? { ProgramRanked(l.rs); }
  }

  lemma {:induction false} OrderlyRun(ls: seq<Label>)
    requires After(ls).Some?
    ensures Orderly(After(ls).value)
  {
    if ls == [] {
    } else {
      OrderlyRun(ls[..|ls| - 1]);
      OrderlyStep(After(ls[..|ls| - 1]).value, ls[|ls| - 1]);
    }
  }

  /** Following the holder of an awaited lock climbs the ranks, so it ends at one that can go on. */
  lemma {:induction false} SomeoneCanGoOn(ts: seq<Thread>, i: nat) returns (j: nat)
    requires Orderly(ts) && i < |ts| && ts[i].todo != []
    ensures CanStep(ts, j)
    decreases if ts[i].todo[0].Acquire? then 5 - Rank(ts[i].todo[0].l) else 0
  {
    if CanStep(ts, i) {
      j := i;
    } else {
      var l := ts[i].todo[0].l;
      var h :| 0 <= h < |ts| && l in ts[h].held;
      assert Holding(ts[h].held, ts[h].todo) == Some({});
      if ts[h].todo[0].Acquire? { assert Rank(l) < Rank(ts[h].todo[0].l); }
      j := SomeoneCanGoOn(ts, h);
    }
  }

  /** No reachable state deadlocks: whatever goroutines were started and however they were
      interleaved, while one of them has something left to do, one of them can do it. */
  lemma NoDeadlock(ls: seq<Label>, ts: seq<Thread>)
    requires After(ls) == Some(ts) && exists i :: 0 <= i < |ts| && ts[i].todo != []
    ensures exists j :: CanStep(ts, j)
  {
    OrderlyRun(ls);
    var i :| 0 <= i < |ts| && ts[i].todo != [];
    var j := SomeoneCanGoOn(ts, i);
  }
}
