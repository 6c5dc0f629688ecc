/** What travels on the tunnel between a gateway and one agent, and the order in which
    each side of an HTTP exchange may say it. */
module Messages {

  type Byte = x: int | 0 <= x < 256
  type Bytes = seq<Byte>

  /** The relay mode a WebSocket stream is opened with, or reported to be opened with. */
  datatype Mode = Framed | Raw | Neither

  /** What registration can settle on. */
  type RelayMode = m: Mode | !m.Neither? witness Framed

  /** One frame's type together with the part of its payload that decides behaviour. A ResStart is
      `interim` when marked so, and `informational` when its status is below 200. */
  datatype Message =
    | ReqStart(parses: bool, webSocket: bool)
    | ReqData(data: Bytes)
    | ReqTrailer
    | ReqEnd
    | ResStart(interim: bool, informational: bool)
    | ResData(data: Bytes)
    | ResTrailer
    | ResEnd
    | WsOpenOK(mode: Mode)
    | WsOpenErr
    | WsC2A(payload: Bytes)
    | WsA2C(payload: Bytes)
    | WsClose
    | Rst

  datatype Packet = Packet(stream: nat, msg: Message)

  /** The messages of one stream, in wire order. */
  function For(ps: seq<Packet>, id: nat): seq<Message> {
    if ps == [] then []
    else
      var n := |ps| - 1;
      For(ps[..n], id) + (if ps[n].stream == id then [ps[n].msg] else [])
  }

  lemma ForAppend(ps: seq<Packet>, p: Packet, id: nat)
    ensures For(ps + [p], id) == For(ps, id) + (if p.stream == id then [p.msg] else [])
  {
    assert (ps + [p])[..|ps|] == ps;
  }

  lemma {:induction false} ForPrefix(ps: seq<Packet>, qs: seq<Packet>, id: nat)
    requires ps <= qs
    ensures For(ps, id) <= For(qs, id)
  {
    if ps == qs {
    } else {
      var n := |qs| - 1;
      assert ps <= qs[..n];
      ForPrefix(ps, qs[..n], id);
    }
  }

  lemma {:induction false} ForAbsent(ps: seq<Packet>, id: nat)
    requires forall p :: p in ps ==> p.stream != id
    ensures For(ps, id) == []
  {
    if ps == [] {
    } else {
      ForAbsent(ps[..|ps| - 1], id);
    }
  }

  predicate IsInterim(m: Message) { m.ResStart? && m.interim }

  /** Resets and interim responses may be interjected at any point; everything else is in order. */
  predicate IsSpoken(m: Message) { !m.Rst? && !IsInterim(m) }

  function Spoken(ms: seq<Message>): (r: seq<Message>) {
    if ms == [] then []
    else
      var n := |ms| - 1;
      Spoken(ms[..n]) + (if IsSpoken(ms[n]) then [ms[n]] else [])
  }

  lemma SpokenAppend(ms: seq<Message>, m: Message)
    ensures Spoken(ms + [m]) == Spoken(ms) + (if IsSpoken(m) then [m] else [])
  {
    assert (ms + [m])[..|ms|] == ms;
  }

  lemma {:induction false} SpokenConcat(a: seq<Message>, b: seq<Message>)
    ensures Spoken(a + b) == Spoken(a) + Spoken(b)
  {
    if b == [] {
      assert a + b == a;
    } else {
      var n := |b| - 1;
      assert a + b == (a + b[..n]) + [b[n]];
      assert b == b[..n] + [b[n]];
      SpokenAppend(a + b[..n], b[n]);
      SpokenConcat(a, b[..n]);
    }
  }

  lemma {:induction false} SpokenIdentity(ms: seq<Message>)
    requires forall m :: m in ms ==> IsSpoken(m)
    ensures Spoken(ms) == ms
  {
    if ms == [] {
    } else {
      SpokenIdentity(ms[..|ms| - 1]);
      assert ms == ms[..|ms| - 1] + [ms[|ms| - 1]];
    }
  }

  lemma {:induction false} SpokenHas(ms: seq<Message>, m: Message)
    ensures m in Spoken(ms) <==> m in ms && IsSpoken(m)
  {
    if ms == [] {
    } else {
      var n := |ms| - 1;
      SpokenHas(ms[..n], m);
      assert ms == ms[..n] + [ms[n]];
    }
  }

  /** Everything but the interim responses. */
  function Plain(ms: seq<Message>): (r: seq<Message>) {
    if ms == [] then []
    else
      var n := |ms| - 1;
      Plain(ms[..n]) + (if IsInterim(ms[n]) then [] else [ms[n]])
  }

  lemma PlainAppend(ms: seq<Message>, m: Message)
    ensures Plain(ms + [m]) == Plain(ms) + (if IsInterim(m) then [] else [m])
  {
    assert (ms + [m])[..|ms|] == ms;
  }

  lemma {:induction false} PlainPrefix(a: seq<Message>, b: seq<Message>)
    requires a <= b
    ensures Plain(a) <= Plain(b)
  {
    if a == b {
    } else {
      assert a <= b[..|b| - 1];
      PlainPrefix(a, b[..|b| - 1]);
    }
  }

  lemma {:induction false} SpokenOfPlain(ms: seq<Message>)
    ensures Spoken(Plain(ms)) == Spoken(ms)
  {
    if ms == [] {
    } else {
      var a, m := ms[..|ms| - 1], ms[|ms| - 1];
      SpokenOfPlain(a);
      if IsInterim(m) {
        assert Plain(ms) == Plain(a);
      } else {
        SpokenAppend(Plain(a), m);
      }
    }
  }

  /** The bytes of the request-body chunks, respectively of the response-body chunks. */
  function RequestBytes(ms: seq<Message>): Bytes {
    if ms == [] then []
    else
      var n := |ms| - 1;
      RequestBytes(ms[..n]) + (if ms[n].ReqData? then ms[n].data else [])
  }

  function ResponseBytes(ms: seq<Message>): Bytes {
    if ms == [] then []
    else
      var n := |ms| - 1;
      ResponseBytes(ms[..n]) + (if ms[n].ResData? then ms[n].data else [])
  }

  lemma RequestBytesAppend(ms: seq<Message>, m: Message)
    ensures RequestBytes(ms + [m]) == RequestBytes(ms) + (if m.ReqData? then m.data else [])
  {
    assert (ms + [m])[..|ms|] == ms;
  }

  lemma ResponseBytesAppend(ms: seq<Message>, m: Message)
    ensures ResponseBytes(ms + [m]) == ResponseBytes(ms) + (if m.ResData? then m.data else [])
  {
    assert (ms + [m])[..|ms|] == ms;
  }

  lemma {:induction false} ResponseBytesPrefix(a: seq<Message>, b: seq<Message>)
    requires a <= b
    ensures ResponseBytes(a) <= ResponseBytes(b)
  {
    if a == b {
    } else {
      var n := |b| - 1;
      assert a <= b[..n];
      ResponseBytesPrefix(a, b[..n]);
    }
  }

  /** `part` is the stretch of `all` that starts at `base`. */
  predicate Stretch<T(==)>(all: seq<T>, base: nat, part: seq<T>) {
    base + |part| <= |all| && all[base..base + |part|] == part
  }

  lemma StretchKept<T>(all: seq<T>, all': seq<T>, base: nat, part: seq<T>)
    requires Stretch(all, base, part) && all <= all'
    ensures Stretch(all', base, part)
  {
    assert all'[base..base + |part|] == all[base..base + |part|];
  }

  lemma StretchGrows<T>(all: seq<T>, base: nat, part: seq<T>, x: T)
    requires Stretch(all, base, part) && base + |part| == |all|
    ensures Stretch(all + [x], base, part + [x])
  {
    assert (all + [x])[base..base + |part| + 1] == all[base..base + |part|] + [x];
  }
}
