/** The heartbeat goroutine: a tick every five seconds, and a connection dropped at the first one
    that finds it idle for longer than the configured timeout. Times are in nanoseconds since the
    connection was born. */
module Heartbeat {
  import opened Options

  const TICK: nat := 5_000_000_000
  const DEFAULT_PING_INTERVAL: nat := 20_000_000_000
  const MIN_GRACE: nat := 5_000_000_000

  function PingInterval(hint: nat): nat { if hint == 0 then DEFAULT_PING_INTERVAL else hint }

  function Grace(grace: nat): nat { if grace < MIN_GRACE then MIN_GRACE else grace }

  /** The timeout `NewServerFromEnv` settles on; zero turns the heartbeat off. */
  function EffectiveTimeout(timeout: nat, hint: nat, grace: nat): nat {
    var least := PingInterval(hint) + Grace(grace);
    if 0 < timeout < least then least else timeout
  }

  /** Activity stamps, oldest first; the first is set when the connection is made. */
  ghost predicate Stamps(acts: seq<nat>) {
    && acts != [] && acts[0] == 0
    && forall i, j :: 0 <= i < j < |acts| ==> acts[i] <= acts[j]
  }

  /** The latest stamp at or before `now`. */
  function LastActive(acts: seq<nat>, now: nat): nat {
    if acts == [] then 0
    else if acts[|acts| - 1] <= now then acts[|acts| - 1]
    else LastActive(acts[..|acts| - 1], now)
  }

  function IdleFor(acts: seq<nat>, now: nat): nat {
    var last := LastActive(acts, now);
    if now < last then 0 else now - last
  }

  function TickAt(start: nat, k: nat): nat { start + k * TICK }

  ghost predicate Drops(acts: seq<nat>, timeout: nat, start: nat, k: nat) {
    IdleFor(acts, TickAt(start, k)) > timeout
  }

  /** The goroutine over its first `ticks` ticks: the tick at which it drops the connection. */
  method Watch(acts: seq<nat>, timeout: nat, start: nat, ticks: nat) returns (dropped: Option<nat>)
    ensures dropped.Some? ==>
              && 1 <= dropped.value <= ticks && Drops(acts, timeout, start, dropped.value)
              && forall k :: 1 <= k < dropped.value ==> !Drops(acts, timeout, start, k)
    ensures dropped.None? ==> forall k :: 1 <= k <= ticks ==> !Drops(acts, timeout, start, k)
  {
    var k := 1;
    while k <= ticks
      invariant 1 <= k <= ticks + 1
      invariant forall j :: 1 <= j < k ==> !Drops(acts, timeout, start, j)
    {
      var idle := IdleFor(acts, TickAt(start, k));
      if idle > timeout {
        return Some(k);
      }
      k := k + 1;
    }
    dropped := None;
  }

  lemma {:induction false} IdleWithinGap(acts: seq<nat>, gap: nat, now: nat)
    requires Stamps(acts) && now <= acts[|acts| - 1] + gap
    requires forall i :: 0 <= i < |acts| - 1 ==> acts[i + 1] <= acts[i] + gap
    ensures IdleFor(acts, now) <= gap
  {
    var n := |acts| - 1;
    if acts[n] <= now {
    } else {
      assert n > 0;
      assert acts[n] <= acts[n - 1] + gap;
      IdleWithinGap(acts[..n], gap, now);
    }
  }

  /** Sound: an agent whose stamps are never further apart than the ping interval plus the grace
      is not dropped at any tick up to that long after its latest stamp, whatever timeout was set. */
  lemma LivelyAgentIsKept(acts: seq<nat>, timeout: nat, hint: nat, grace: nat, start: nat, k: nat)
    requires timeout > 0 && Stamps(acts)
    requires var gap := PingInterval(hint) + Grace(grace);
             && TickAt(start, k) <= acts[|acts| - 1] + gap
             && forall i :: 0 <= i < |acts| - 1 ==> acts[i + 1] <= acts[i] + gap
    ensures !Drops(acts, EffectiveTimeout(timeout, hint, grace), start, k)
  {
    IdleWithinGap(acts, PingInterval(hint) + Grace(grace), TickAt(start, k));
  }

  lemma {:induction false} LastActiveBound(acts: seq<nat>, now: nat)
    requires Stamps(acts)
    ensures LastActive(acts, now) <= acts[|acts| - 1] && LastActive(acts, now) <= now
    ensures acts[|acts| - 1] <= now ==> LastActive(acts, now) == acts[|acts| - 1]
  {
    var n := |acts| - 1;
    if acts[n] <= now {
    } else if n > 0 {
      LastActiveBound(acts[..n], now);
    }
  }

  /** Bounded: once an agent has fallen silent, some tick no later than five seconds after the
      timeout has run out (or after the first tick was due) drops it, and none does before. */
  lemma SilentAgentIsDropped(acts: seq<nat>, timeout: nat, start: nat) returns (k: nat)
    requires Stamps(acts)
    ensures k >= 1 && Drops(acts, timeout, start, k)
    ensures TickAt(start, k) > acts[|acts| - 1] + timeout
    ensures TickAt(start, k) <= acts[|acts| - 1] + timeout + TICK || TickAt(start, k) == start + TICK
    ensures forall j :: 1 <= j < k && TickAt(start, j) >= acts[|acts| - 1] ==> !Drops(acts, timeout, start, j)
  {
    var due := acts[|acts| - 1] + timeout;
    k := if due < start then 1 else (due - start) / TICK + 1;
    if due >= start {
      var q, r := (due - start) / TICK, (due - start) % TICK;
      assert due - start == q * TICK + r;
    }
    LastActiveBound(acts, TickAt(start, k));
    forall j | 1 <= j < k && TickAt(start, j) >= acts[|acts| - 1] ensures !Drops(acts, timeout, start, j) {
      LastActiveBound(acts, TickAt(start, j));
      assert j <= (due - start) / TICK;
    }
  }
}
