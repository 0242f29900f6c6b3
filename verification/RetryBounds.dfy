/** How often and for how long one call is retried: bounds over every sequence
    of failure classes the call may meet. */
module RetryBounds {
  import opened Wrappers
  import opened RetryPolicy

  /** A failed attempt, as the retry decision sees it. */
  datatype Failed = Failed(cls: RetryClass, scope: RetryScope, now: nat)

  /** The counters of the next attempt. */
  function Next(cfg: Config, b: Budget, cls: RetryClass): Budget {
    Charge(cfg, b, cls).(attempt := b.attempt + 1)
  }

  function DelayOf(cfg: Config, o: Opts, started: nat, b: Budget, f: Failed): Option<nat> {
    Delay(cfg, o, b, f.cls, f.scope, started, f.now)
  }

  /** Every failure of the list, in turn, is granted another attempt. */
  predicate Granted(cfg: Config, o: Opts, started: nat, b: Budget, fails: seq<Failed>)
    decreases |fails|
  {
    fails == [] ||
    (DelayOf(cfg, o, started, b, fails[0]).Some? && Granted(cfg, o, started, Next(cfg, b, fails[0].cls), fails[1..]))
  }

  function TotalBackoff(cfg: Config, o: Opts, started: nat, b: Budget, fails: seq<Failed>): nat
    requires Granted(cfg, o, started, b, fails)
    decreases |fails|
  {
    if fails == [] then 0
    else DelayOf(cfg, o, started, b, fails[0]).value
         + TotalBackoff(cfg, o, started, Next(cfg, b, fails[0].cls), fails[1..])
  }

  function Minus(a: nat, b: nat): nat { if a < b then 0 else a - b }

  /** The retries a budget can still grant. */
  function Potential(cfg: Config, b: Budget): nat {
    Minus(cfg.attempts, 1 + b.attempt) + Minus(cfg.attempts, 1 + b.rolledBack)
    + (if b.connectionLost == 0 then 1 else 0) + (if b.deadline == 0 then 1 else 0)
  }

  lemma GrantSpends(cfg: Config, o: Opts, b: Budget, cls: RetryClass, scope: RetryScope, started: nat, now: nat)
    requires Delay(cfg, o, b, cls, scope, started, now).Some?
    ensures Potential(cfg, Next(cfg, b, cls)) < Potential(cfg, b)
  {}

  lemma {:induction false} RetriesWithinPotential(cfg: Config, o: Opts, started: nat, b: Budget, fails: seq<Failed>)
    requires Granted(cfg, o, started, b, fails)
    ensures |fails| <= Potential(cfg, b)
    decreases |fails|
  {
    if fails != [] {
      GrantSpends(cfg, o, b, fails[0].cls, fails[0].scope, started, fails[0].now);
      RetriesWithinPotential(cfg, o, started, Next(cfg, b, fails[0].cls), fails[1..]);
    }
  }

  /** Whatever the mix of failure classes, a call is retried at most twice the
      configured number of attempts. */
  lemma RetriesBounded(cfg: Config, o: Opts, started: nat, fails: seq<Failed>)
    requires ValidConfig(cfg) && Granted(cfg, o, started, UNTOUCHED, fails)
    ensures |fails| <= 2 * cfg.attempts
  {
    RetriesWithinPotential(cfg, o, started, UNTOUCHED, fails);
  }

  // ---------- the bound is reached ----------

  function Repeat(cls: RetryClass, n: nat): seq<Failed> {
    if n == 0 then [] else [Failed(cls, Transaction, 0)] + Repeat(cls, n - 1)
  }

  /** First every NotStarted retry, then every rollback, one loss, one deadline. */
  function WorstCase(cfg: Config): seq<Failed>
    requires cfg.attempts >= 1
  {
    Repeat(NotStarted, cfg.attempts - 1) + (Repeat(RolledBack, cfg.attempts - 1)
    + [Failed(ConnectionLost, Transaction, 0), Failed(Deadline, Transaction, 0)])
  }

  lemma {:induction false} NotStartedRuns(cfg: Config, o: Opts, b: Budget, n: nat, rest: seq<Failed>)
    requires o.budgetMs == 0 && b.attempt + n < cfg.attempts
    requires Granted(cfg, o, 0, b.(attempt := b.attempt + n), rest)
    ensures Granted(cfg, o, 0, b, Repeat(NotStarted, n) + rest)
    decreases n
  {
    if n == 0 {
      assert Repeat(NotStarted, n) + rest == rest;
    } else {
      NotStartedRuns(cfg, o, b.(attempt := b.attempt + 1), n - 1, rest);
      assert (Repeat(NotStarted, n) + rest)[1..] == Repeat(NotStarted, n - 1) + rest;
    }
  }

  lemma {:induction false} RolledBackRuns(cfg: Config, o: Opts, b: Budget, n: nat, rest: seq<Failed>)
    requires o.budgetMs == 0 && b.rolledBack + n < cfg.attempts
    requires Granted(cfg, o, 0, b.(attempt := b.attempt + n, rolledBack := b.rolledBack + n), rest)
    ensures Granted(cfg, o, 0, b, Repeat(RolledBack, n) + rest)
    decreases n
  {
    if n == 0 {
      assert Repeat(RolledBack, n) + rest == rest;
    } else {
      RolledBackRuns(cfg, o, b.(attempt := b.attempt + 1, rolledBack := b.rolledBack + 1), n - 1, rest);
      assert (Repeat(RolledBack, n) + rest)[1..] == Repeat(RolledBack, n - 1) + rest;
    }
  }

  lemma {:induction false} RepeatLength(cls: RetryClass, n: nat)
    ensures |Repeat(cls, n)| == n
  {
    if n > 0 { RepeatLength(cls, n - 1); }
  }

  /** The bound of RetriesBounded is exact: run_tx can make 2 * attempts retries. */
  lemma RetriesBoundIsTight(cfg: Config, o: Opts)
    requires ValidConfig(cfg) && o.budgetMs == 0
    ensures Granted(cfg, o, 0, UNTOUCHED, WorstCase(cfg)) && |WorstCase(cfg)| == 2 * cfg.attempts
  {
    var n := cfg.attempts - 1;
    var last := [Failed(ConnectionLost, Transaction, 0), Failed(Deadline, Transaction, 0)];
    var b := UNTOUCHED.(attempt := n + n, rolledBack := n);
    assert last[1..] == [Failed(Deadline, Transaction, 0)] && last[1..][1..] == [];
    assert Granted(cfg, o, 0, Next(cfg, b, ConnectionLost), last[1..]);
    assert Granted(cfg, o, 0, b, last);
    RolledBackRuns(cfg, o, UNTOUCHED.(attempt := n), n, last);
    NotStartedRuns(cfg, o, UNTOUCHED, n, Repeat(RolledBack, n) + last);
    RepeatLength(NotStarted, n);
    RepeatLength(RolledBack, n);
  }

  // ---------- how long ----------

  /** The delays before tries from + 1 to `to` of what never starts. */
  function NotStartedSum(cfg: Config, from: nat, to: nat): nat
    decreases Minus(to, from)
  {
    if from >= to then 0 else TransientDelay(cfg, from) + NotStartedSum(cfg, from + 1, to)
  }

  function RolledBackSum(from: nat, to: nat): nat
    decreases Minus(to, from)
  {
    if from >= to then 0 else RollbackDelay(from) + RolledBackSum(from + 1, to)
  }

  function BackoffLeft(cfg: Config, b: Budget): nat
    requires cfg.attempts >= 1
  {
    NotStartedSum(cfg, b.attempt, cfg.attempts - 1) + RolledBackSum(b.rolledBack, cfg.attempts - 1)
  }

  lemma WrapOnlyShrinks(x: nat)
    ensures x % U32 <= x
  {}

  lemma DelayIsSpent(cfg: Config, o: Opts, started: nat, b: Budget, f: Failed)
    requires ValidConfig(cfg) && DelayOf(cfg, o, started, b, f).Some?
    ensures DelayOf(cfg, o, started, b, f).value + BackoffLeft(cfg, Next(cfg, b, f.cls)) <= BackoffLeft(cfg, b)
  {
  }

  lemma {:induction false} BackoffWithinSums(cfg: Config, o: Opts, started: nat, b: Budget, fails: seq<Failed>)
    requires ValidConfig(cfg) && Granted(cfg, o, started, b, fails)
    ensures TotalBackoff(cfg, o, started, b, fails) <= BackoffLeft(cfg, b)
    decreases |fails|
  {
    if fails != [] {
      DelayIsSpent(cfg, o, started, b, fails[0]);
      BackoffWithinSums(cfg, o, started, Next(cfg, b, fails[0].cls), fails[1..]);
    }
  }

  lemma {:induction false} NotStartedClosedForm(cfg: Config, from: nat, to: nat)
    requires from <= to
    ensures 2 * NotStartedSum(cfg, from, to) + cfg.baseMs * Power(3, from) <= cfg.baseMs * Power(3, to)
    decreases Minus(to, from)
  {
    if from < to {
      NotStartedClosedForm(cfg, from + 1, to);
      PowerStep(cfg.baseMs, from);
      WrapOnlyShrinks(cfg.baseMs * Power(3, from));
    }
  }

  lemma {:induction false} RolledBackClosedForm(from: nat, to: nat)
    requires from <= to
    ensures RolledBackSum(from, to) + 50 * Power(2, from) <= 50 * Power(2, to)
    decreases Minus(to, from)
  {
    if from < to {
      RolledBackClosedForm(from + 1, to);
      WrapOnlyShrinks(50 * Power(2, from));
    }
  }

  /** Total backoff of one call: at most base * (3^(A-1) - 1) / 2 + 50 * (2^(A-1) - 1)
      milliseconds for A attempts, wrapped 32-bit products included. */
  lemma BackoffBounded(cfg: Config, o: Opts, started: nat, fails: seq<Failed>)
    requires ValidConfig(cfg) && Granted(cfg, o, started, UNTOUCHED, fails)
    ensures 2 * TotalBackoff(cfg, o, started, UNTOUCHED, fails) + cfg.baseMs + 100
         <= cfg.baseMs * Power(3, cfg.attempts - 1) + 100 * Power(2, cfg.attempts - 1)
  {
    BackoffWithinSums(cfg, o, started, UNTOUCHED, fails);
    NotStartedClosedForm(cfg, 0, cfg.attempts - 1);
    RolledBackClosedForm(0, cfg.attempts - 1);
  }

  /** The documented backoff, over unbounded integers. */
  function ExactBackoff(cfg: Config, b: Budget, cls: RetryClass): Option<nat> {
    match cls
    case NotStarted => if b.attempt + 1 < cfg.attempts then Some(cfg.baseMs * Power(3, b.attempt)) else None
    case RolledBack => if b.rolledBack + 1 < cfg.attempts then Some(50 * Power(2, b.rolledBack)) else None
    case _ => Backoff(cfg, b, cls)
  }

  lemma {:induction false} PowerGrows(base: nat, x: nat, m: nat, n: nat)
    requires x >= 1 && m <= n
    ensures base * Power(x, m) <= base * Power(x, n)
    decreases n
  {
    if m < n {
      PowerGrows(base, x, m, n - 1);
      var p := Power(x, n - 1);
      assert Power(x, n) == x * p;
      assert base * p <= base * (x * p) by { Scale(base, p, x * p); }
    }
  }

  lemma Scale(base: nat, p: nat, q: nat)
    requires p <= q
    ensures base * p <= base * q
  {}

  lemma FitsIff(x: nat)
    ensures x % U32 == x <==> x < U32
  {}

  predicate LargestFit(cfg: Config)
    requires cfg.attempts >= 2
  {
    cfg.baseMs * Power(3, cfg.attempts - 2) < U32 && 50 * Power(2, cfg.attempts - 2) < U32
  }

  lemma ExactWhenLargestFit(cfg: Config, b: Budget, cls: RetryClass)
    requires cfg.attempts >= 2 && LargestFit(cfg)
    ensures Backoff(cfg, b, cls) == ExactBackoff(cfg, b, cls)
  {
    var n := cfg.attempts - 2;
    if cls == NotStarted && b.attempt <= n {
      PowerGrows(cfg.baseMs, 3, b.attempt, n);
      FitsIff(cfg.baseMs * Power(3, b.attempt));
    } else if cls == RolledBack && b.rolledBack <= n {
      PowerGrows(50, 2, b.rolledBack, n);
      FitsIff(50 * Power(2, b.rolledBack));
    }
  }

  lemma WrapsWhenLargestDoNotFit(cfg: Config) returns (b: Budget, cls: RetryClass)
    requires cfg.attempts >= 2 && !LargestFit(cfg)
    ensures Backoff(cfg, b, cls) != ExactBackoff(cfg, b, cls)
  {
    var n := cfg.attempts - 2;
    b := Budget(n, 0, 0, n);
    FitsIff(cfg.baseMs * Power(3, n));
    FitsIff(50 * Power(2, n));
    cls := if cfg.baseMs * Power(3, n) < U32 then RolledBack else NotStarted;
  }

  /** The 32-bit products are the documented delays for every retry exactly when
      the largest of each kind fits. */
  lemma NoDelayWrapsIff(cfg: Config)
    requires ValidConfig(cfg) && cfg.attempts >= 2
    ensures (forall b: Budget, cls: RetryClass :: Backoff(cfg, b, cls) == ExactBackoff(cfg, b, cls)) <==> LargestFit(cfg)
  {
    if LargestFit(cfg) {
      forall b: Budget, cls: RetryClass ensures Backoff(cfg, b, cls) == ExactBackoff(cfg, b, cls) {
        ExactWhenLargestFit(cfg, b, cls);
      }
    } else {
      var b, cls := WrapsWhenLargestDoNotFit(cfg);
    }
  }

  // ---------- the wall-clock budget ----------

  /** The clock fits its 64 bits, and a sleep lasts at least its delay. */
  predicate ClockRuns(cfg: Config, o: Opts, started: nat, b: Budget, fails: seq<Failed>)
    requires Granted(cfg, o, started, b, fails)
    decreases |fails|
  {
    fails == [] ||
    (var d := DelayOf(cfg, o, started, b, fails[0]).value;
     && fails[0].now + d < U64
     && (|fails| > 1 ==> fails[0].now + d <= fails[1].now)
     && ClockRuns(cfg, o, started, Next(cfg, b, fails[0].cls), fails[1..]))
  }

  /** What the 64-bit comparison decides about a retry due at `due`. */
  lemma BudgetComparison(o: Opts, started: nat, now: nat, delay: nat)
    requires 0 < o.budgetMs < U64 && started <= now && now + delay < U64
    ensures started + o.budgetMs < U64 ==> (OverBudget(o, started, now, delay) <==> now + delay >= started + o.budgetMs)
    ensures started + o.budgetMs >= U64 ==> OverBudget(o, started, now, delay)
  {
    if started + o.budgetMs >= U64 {
      assert (started + o.budgetMs) % U64 == started + o.budgetMs - U64;
    }
  }

  lemma {:induction false} BudgetBoundsRest(cfg: Config, o: Opts, started: nat, b: Budget, fails: seq<Failed>)
    requires 0 < o.budgetMs < U64 && fails != [] && started <= fails[0].now
    requires Granted(cfg, o, started, b, fails) && ClockRuns(cfg, o, started, b, fails)
    ensures fails[0].now + TotalBackoff(cfg, o, started, b, fails) < started + o.budgetMs
    decreases |fails|
  {
    var d := DelayOf(cfg, o, started, b, fails[0]).value;
    BudgetComparison(o, started, fails[0].now, d);
    if |fails| > 1 {
      BudgetBoundsRest(cfg, o, started, Next(cfg, b, fails[0].cls), fails[1..]);
    }
  }

  /** With a budget, all backoff of the call together stays below it. */
  lemma BackoffWithinBudget(cfg: Config, o: Opts, started: nat, fails: seq<Failed>)
    requires 0 < o.budgetMs < U64 && fails != [] && started <= fails[0].now
    requires Granted(cfg, o, started, UNTOUCHED, fails) && ClockRuns(cfg, o, started, UNTOUCHED, fails)
    ensures TotalBackoff(cfg, o, started, UNTOUCHED, fails) < o.budgetMs
  {
    BudgetBoundsRest(cfg, o, started, UNTOUCHED, fails);
  }

  /** The converse promise, that only retries starting after the budget are
      withheld, holds exactly when the end of the budget fits 64 bits; beyond
      that (a budget meant as "unlimited", say) no retry is made at all. */
  lemma BudgetWithholdsOnlyLateRetriesIff(cfg: Config, o: Opts, started: nat)
    requires ValidConfig(cfg) && 0 < o.budgetMs < U64 && started < U64
    ensures (forall b: Budget, cls: RetryClass, scope: RetryScope, now: nat
               | started <= now && EndsInTime(cfg, o, started, b, cls, scope, now) ::
               Delay(cfg, o, b, cls, scope, started, now).Some?)
            <==> started + o.budgetMs < U64
  {
    forall b: Budget, cls: RetryClass, scope: RetryScope, now: nat
      | started <= now && EndsInTime(cfg, o, started, b, cls, scope, now)
      ensures Delay(cfg, o, b, cls, scope, started, now).Some? <==> started + o.budgetMs < U64
    {
      BudgetComparison(o, started, now, Backoff(cfg, b, cls).value);
    }
    assert EndsInTime(cfg, o, started, UNTOUCHED, ConnectionLost, Transaction, started);
  }

  /** The class and its counters permit a retry, and it would start within the budget. */
  predicate EndsInTime(cfg: Config, o: Opts, started: nat, b: Budget, cls: RetryClass, scope: RetryScope, now: nat) {
    && Allowed(o, cls, scope) && Backoff(cfg, b, cls).Some?
    && now + Backoff(cfg, b, cls).value < U64
    && now + Backoff(cfg, b, cls).value < started + o.budgetMs
  }
}
