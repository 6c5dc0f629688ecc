/** The agent's connection loop: what it costs to keep failing. Times are in seconds; the jitter
    is any number in [0.8, 1.2). */
module Reconnect {

  datatype Outcome =
    | DialFailed(took: real)
    | Disconnected(lasted: real, heartbeat: bool, conflict: bool)  // conflict: close code 4009

  /** One turn of the loop up to the end of its wait. */
  datatype Cycle = Cycle(outcome: Outcome, jitter: real)

  const IDENTITY_CONFLICT_FLOOR: real := 5.0

  ghost predicate Possible(c: Cycle) {
    && 0.8 <= c.jitter < 1.2
    && (if c.outcome.DialFailed? then c.outcome.took >= 0.0 else c.outcome.lasted >= 0.0)
  }

  function Shifted(n: nat): real { if n == 0 then 1.0 else 2.0 * Shifted(n - 1) }

  /** `reconnectBackoff`: 1, 2, 4, 8, 16 and then 30 seconds, times the jitter. */
  function Backoff(attempt: nat, jitter: real): real {
    var a := if attempt < 1 then 1 else attempt;
    var d := Shifted(if a - 1 < 5 then a - 1 else 5);
    (if d > 30.0 then 30.0 else d) * jitter
  }

  /** A connection clears the count only by lasting 30 seconds and answering a ping. */
  function AttemptAfter(attempt: nat, o: Outcome): nat {
    (if o.Disconnected? && o.lasted >= 30.0 && o.heartbeat then 0 else attempt) + 1
  }

  function Wait(attempt: nat, c: Cycle): real {
    var wait := Backoff(attempt, c.jitter);
    if c.outcome.Disconnected? && c.outcome.conflict && wait < IDENTITY_CONFLICT_FLOOR
    then IDENTITY_CONFLICT_FLOOR else wait
  }

  function Took(o: Outcome): real { if o.DialFailed? then o.took else o.lasted }

  // The loop's counter and clock after a history of cycles.
  function Attempts(cs: seq<Cycle>): nat {
    if cs == [] then 0 else AttemptAfter(Attempts(cs[..|cs| - 1]), cs[|cs| - 1].outcome)
  }

  function Elapsed(cs: seq<Cycle>): real {
    if cs == [] then 0.0
    else
      var n := |cs| - 1;
      Elapsed(cs[..n]) + Took(cs[n].outcome) + Wait(Attempts(cs), cs[n])
  }

  /** `Run` until its context is cancelled after the given cycles. */
  method Run(cs: seq<Cycle>) returns (attempt: nat, elapsed: real)
    ensures attempt == Attempts(cs) && elapsed == Elapsed(cs)
  {
    attempt, elapsed := 0, 0.0;
    for i := 0 to |cs|
      invariant attempt == Attempts(cs[..i]) && elapsed == Elapsed(cs[..i])
    {
      var c := cs[i];
      assert cs[..i + 1][..i] == cs[..i];
      if c.outcome.DialFailed? {
        elapsed := elapsed + c.outcome.took;
        attempt := attempt + 1;
        elapsed := elapsed + Backoff(attempt, c.jitter);
      } else {
        elapsed := elapsed + c.outcome.lasted;
        if c.outcome.lasted >= 30.0 && c.outcome.heartbeat {
          attempt := 0;
        }
        attempt := attempt + 1;
        var wait := Backoff(attempt, c.jitter);
        if c.outcome.conflict {
          if wait < IDENTITY_CONFLICT_FLOOR {
            wait := IDENTITY_CONFLICT_FLOOR;
          }
        }
        elapsed := elapsed + wait;
      }
    }
    assert cs[..|cs|] == cs;
  }

  function LeastWait(attempt: nat): real
    requires attempt >= 1
  {
    if attempt == 1 then 0.8 else if attempt == 2 then 1.6 else if attempt == 3 then 3.2
    else if attempt == 4 then 6.4 else if attempt == 5 then 12.8 else 24.0
  }

  lemma ShiftedTable()
    ensures Shifted(0) == 1.0 && Shifted(1) == 2.0 && Shifted(2) == 4.0
    ensures Shifted(3) == 8.0 && Shifted(4) == 16.0 && Shifted(5) == 32.0
  {
    assert Shifted(2) == 2.0 * Shifted(1);
    assert Shifted(4) == 2.0 * Shifted(3);
  }

  /** Every wait is at least 0.8 times the table's value and shorter than 36 seconds. */
  lemma WaitBounds(attempt: nat, c: Cycle)
    requires attempt >= 1 && Possible(c)
    ensures LeastWait(attempt) <= Wait(attempt, c) < 36.0
    ensures c.outcome.Disconnected? && c.outcome.conflict ==> Wait(attempt, c) >= IDENTITY_CONFLICT_FLOOR
  {
    ShiftedTable();
  }

  /** The most that a run can be behind 10.5 seconds a cycle when its counter stands at `attempt`. */
  function Debt(attempt: nat): real {
    if attempt == 0 then 0.0 else if attempt == 1 then 9.7 else if attempt == 2 then 18.6
    else if attempt == 3 then 25.9 else if attempt == 4 then 30.0 else if attempt == 5 then 27.7 else 14.2
  }

  lemma {:induction false} DebtInvariant(cs: seq<Cycle>)
    requires forall c :: c in cs ==> Possible(c)
    ensures Elapsed(cs) >= 10.5 * |cs| as real - Debt(Attempts(cs))
  {
    if cs == [] {
    } else {
      var n := |cs| - 1;
      DebtInvariant(cs[..n]);
      assert cs[n] in cs;
      WaitBounds(Attempts(cs), cs[n]);
      assert |cs| as real == n as real + 1.0;
    }
  }

  /** Over every run, however dial failures, flapping and stable connections alternate, n completed
      cycles take at least 10.5 n - 30 seconds. */
  lemma RetriesAreAmortised(cs: seq<Cycle>)
    requires forall c :: c in cs ==> Possible(c)
    ensures Elapsed(cs) >= 10.5 * |cs| as real - 30.0
  {
    DebtInvariant(cs);
  }

  const FailFast := Cycle(DialFailed(0.0), 0.8)
  const JustStable := Cycle(Disconnected(30.0, true, false), 0.8)

  /** Four failures in a row, then again and again a barely stable connection and three failures. */
  function Worst(m: nat): seq<Cycle> {
    if m == 0 then []
    else Worst(m - 1) + [if m == 1 then FailFast else JustStable] + [FailFast] + [FailFast] + [FailFast]
  }

  lemma Later(cs: seq<Cycle>, c: Cycle)
    ensures Attempts(cs + [c]) == AttemptAfter(Attempts(cs), c.outcome)
    ensures Elapsed(cs + [c]) == Elapsed(cs) + Took(c.outcome) + Wait(Attempts(cs + [c]), c)
  {
    assert (cs + [c])[..|cs|] == cs;
  }

  /** A barely stable connection or a first failure, then three failures: attempts one to four. */
  lemma FourMore(a: seq<Cycle>, c: Cycle)
    requires c == JustStable || (c == FailFast && Attempts(a) == 0)
    ensures var b := a + [c] + [FailFast] + [FailFast] + [FailFast];
            && Attempts(b) == 4
            && Elapsed(b) == Elapsed(a) + Took(c.outcome) + 0.8 * (1.0 + 2.0 + 4.0 + 8.0)
  {
    ShiftedTable();
    Later(a, c);
    Later(a + [c], FailFast);
    Later(a + [c] + [FailFast], FailFast);
    Later(a + [c] + [FailFast] + [FailFast], FailFast);
  }

  /** The bound is met: for every m there is a run of 4 m cycles that takes no longer. */
  lemma {:induction false} BoundIsTight(m: nat)
    requires m >= 1
    ensures |Worst(m)| == 4 * m && (forall c :: c in Worst(m) ==> Possible(c))
    ensures Attempts(Worst(m)) == 4 && Elapsed(Worst(m)) == 10.5 * (4 * m) as real - 30.0
  {
    if m > 1 { BoundIsTight(m - 1); }
    FourMore(Worst(m - 1), if m == 1 then FailFast else JustStable);
  }
}
