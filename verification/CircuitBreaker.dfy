/** The per-node circuit breaker, over any history of health ticks. */
module CircuitBreaker {
  datatype Status = Closed | HalfOpen | Open

  datatype Breaker = Breaker(status: Status, until: int)

  datatype Delays = Delays(quiet: nat, backoff: nat, max: nat)

  /** One health check of a node: when, and whether it passed. */
  datatype Tick = Tick(now: int, ok: bool)

  const INITIAL := Breaker(Closed, 0)

  function Delay(s: Status, d: Delays): nat {
    match s case Closed => d.quiet case HalfOpen => d.backoff case Open => d.max
  }

  /** What a tick does to a node's breaker. */
  function Applied(b: Breaker, t: Tick, d: Delays): Breaker {
    if !t.ok then Breaker(Open, t.now + Delay(b.status, d))
    else if t.now < b.until then b
    else match b.status
         case Closed => b
         case HalfOpen => b.(status := Closed)
         case Open => b.(status := HalfOpen)
  }

  /** The breaker after the first `n` ticks. */
  function After(h: seq<Tick>, n: nat, d: Delays): Breaker
    requires n <= |h|
  {
    if n == 0 then INITIAL else Applied(After(h, n - 1, d), h[n - 1], d)
  }

  // ---------- a reference that does not step ----------

  /** The last failed tick before `n`, or -1. */
  function LastFailure(h: seq<Tick>, n: nat): (k: int)
    requires n <= |h|
    ensures -1 <= k < n
    ensures k >= 0 ==> !h[k].ok
    ensures forall j | k < j < n :: h[j].ok
  {
    if n == 0 then -1 else if !h[n - 1].ok then n - 1 else LastFailure(h, n - 1)
  }

  /** How many ticks from `i` up to `j` came at or after `until`. */
  function LateTicks(h: seq<Tick>, i: nat, j: nat, until: int): nat
    requires i <= j <= |h|
    decreases j - i
  {
    if i == j then 0 else LateTicks(h, i, j - 1, until) + (if h[j - 1].now >= until then 1 else 0)
  }

  /** When a node that failed at tick `k` may come back. */
  function Deadline(h: seq<Tick>, k: nat, d: Delays): int
    requires k < |h|
  {
    h[k].now + Delay(After(h, k, d).status, d)
  }

  function Reopened(late: nat): Status { if late == 0 then Open else if late == 1 then HalfOpen else Closed }

  /** The breaker is open until a passing tick at or after the deadline of the last
      failure, half open after one such tick, closed after two; a node that
      never failed is closed. */
  lemma {:induction false} StatusCountsLateTicks(h: seq<Tick>, n: nat, d: Delays)
    requires n <= |h|
    ensures var k := LastFailure(h, n);
            if k < 0 then After(h, n, d) == INITIAL
            else After(h, n, d) == Breaker(Reopened(LateTicks(h, k + 1, n, Deadline(h, k, d))), Deadline(h, k, d))
    decreases n
  {
    if n > 0 {
      StatusCountsLateTicks(h, n - 1, d);
    }
  }

  /** How long a failure keeps the node out: the quiet time after the first failure and after a
      recovery, the backoff when it fails half open, the maximum when it fails while out. */
  lemma DeadlineAfterFailure(h: seq<Tick>, f: nat, d: Delays)
    requires f < |h| && !h[f].ok
    ensures After(h, f + 1, d).status == Open && After(h, f + 1, d).until == Deadline(h, f, d)
    ensures var k := LastFailure(h, f);
            if k < 0 then Deadline(h, f, d) == h[f].now + d.quiet
            else match LateTicks(h, k + 1, f, Deadline(h, k, d))
                 case 0 => Deadline(h, f, d) == h[f].now + d.max
                 case 1 => Deadline(h, f, d) == h[f].now + d.backoff
                 case _ => Deadline(h, f, d) == h[f].now + d.quiet
  {
    StatusCountsLateTicks(h, f, d);
  }

  /** A node that failed is let back in only by a passing tick at or after its deadline. */
  lemma BackOnlyAfterDeadline(h: seq<Tick>, n: nat, d: Delays) returns (m: nat)
    requires n <= |h| && LastFailure(h, n) >= 0 && After(h, n, d).status != Open
    ensures LastFailure(h, n) < m < n && h[m].ok && h[m].now >= Deadline(h, LastFailure(h, n), d)
    ensures After(h, m, d).status == Open && After(h, m + 1, d).status == HalfOpen
  {
    var k := LastFailure(h, n);
    StatusCountsLateTicks(h, n, d);
    m := FirstLate(h, k + 1, n, Deadline(h, k, d));
    LastFailureSame(h, k, m, n);
    LastFailureSame(h, k, m + 1, n);
    StatusCountsLateTicks(h, m, d);
    StatusCountsLateTicks(h, m + 1, d);
  }

  lemma {:induction false} FirstLate(h: seq<Tick>, i: nat, j: nat, until: int) returns (m: nat)
    requires i <= j <= |h| && LateTicks(h, i, j, until) > 0
    ensures i <= m < j && h[m].now >= until && LateTicks(h, i, m, until) == 0
    decreases j
  {
    if LateTicks(h, i, j - 1, until) > 0 {
      m := FirstLate(h, i, j - 1, until);
    } else {
      m := j - 1;
    }
  }

  lemma {:induction false} LastFailureSame(h: seq<Tick>, k: int, m: nat, n: nat)
    requires n <= |h| && LastFailure(h, n) == k && k < m <= n
    ensures LastFailure(h, m) == k
    decreases n
  {
    if m < n { LastFailureSame(h, k, m, n - 1); }
  }

  /** Tick m passes at or after the deadline of the failure before it. */
  predicate LetsBackIn(h: seq<Tick>, m: nat, d: Delays) {
    && m < |h| && h[m].ok
    && var k := LastFailure(h, m);
       k >= 0 && h[m].now >= Deadline(h, k, d)
  }

  /** Between a failed tick and one that lets the node back in, the breaker is open. */
  lemma StaysOpen(h: seq<Tick>, f: nat, n: nat, d: Delays)
    requires f < n <= |h| && !h[f].ok
    requires forall m: nat | f < m < n :: !LetsBackIn(h, m, d)
    ensures After(h, n, d).status == Open
  {
    var k := LastFailure(h, n);
    assert k >= f;
    if After(h, n, d).status != Open {
      var m := BackOnlyAfterDeadline(h, n, d);
      LastFailureSame(h, k, m, n);
      assert LetsBackIn(h, m, d);
    }
  }

  predicate ClockRuns(h: seq<Tick>) { forall i, j | 0 <= i < j < |h| :: h[i].now <= h[j].now }

  /** Under a clock that does not run backwards a node that failed is closed again
      only after two passing ticks in a row, both at or after its deadline. */
  lemma ClosedOnlyAfterTwoInARow(h: seq<Tick>, n: nat, d: Delays) returns (m: nat)
    requires n <= |h| && ClockRuns(h) && LastFailure(h, n) >= 0 && After(h, n, d).status == Closed
    ensures LastFailure(h, n) < m && m + 1 < n && h[m].ok && h[m + 1].ok
    ensures Deadline(h, LastFailure(h, n), d) <= h[m].now <= h[m + 1].now
    ensures After(h, m, d).status == Open && After(h, m + 1, d).status == HalfOpen && After(h, m + 2, d).status == Closed
  {
    var k := LastFailure(h, n);
    var until := Deadline(h, k, d);
    StatusCountsLateTicks(h, n, d);
    m := BackOnlyAfterDeadline(h, n, d);
    if m + 1 == n {
      assert false;
    }
    LastFailureSame(h, k, m + 1, n);
    LastFailureSame(h, k, m + 2, n);
    StatusCountsLateTicks(h, m + 1, d);
    StatusCountsLateTicks(h, m + 2, d);
  }
}
