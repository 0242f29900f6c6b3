/** When the wall-clock budget of a run_tx covers all its backoff: the exact conditions, and
    the runs in which it does not. */
module BudgetCoverage {
  import opened Wrappers
  import opened RetryPolicy
  import opened RetryBounds
  import opened Transaction
  import opened RunTx
  import opened SleepBounds

  /** Every call of this kind sleeps less than its budget. */
  ghost predicate Covered(emulated: bool, cfg: Config, o: Opts, started: nat) {
    forall env: nat -> Script | ClockKept(emulated, cfg, o, started, env, UNTOUCHED, started) ::
      SleepFrom(emulated, cfg, o, started, env, UNTOUCHED) < o.budgetMs
  }

  // ---------- nothing to sleep for inside an attempt ----------

  lemma {:induction false} NoBaseNoSleep(cfg: Config, from: nat, to: nat)
    requires cfg.baseMs == 0
    ensures NotStartedSum(cfg, from, to) == 0
    decreases Minus(to, from)
  {
    if from < to { NoBaseNoSleep(cfg, from + 1, to); }
  }

  lemma CoveredWithoutTries(emulated: bool, cfg: Config, o: Opts, started: nat)
    requires ValidConfig(cfg) && 0 < o.budgetMs < U64 && (cfg.attempts == 1 || cfg.baseMs == 0)
    ensures Covered(emulated, cfg, o, started)
  {
    assert TriesSum(cfg) == 0 by { if cfg.baseMs == 0 { NoBaseNoSleep(cfg, 0, cfg.attempts - 1); } }
    forall env: nat -> Script | ClockKept(emulated, cfg, o, started, env, UNTOUCHED, started)
      ensures SleepFrom(emulated, cfg, o, started, env, UNTOUCHED) < o.budgetMs
    {
      OvershootsByOneAttempt(emulated, cfg, o, started, env);
      var made := Attempts(emulated, cfg, o, started, env, UNTOUCHED);
      var last := made[|made| - 1];
      AttemptSleepBounded(emulated, cfg, last);
      assert Tried(emulated, last) * 0 == 0;
    }
  }

  // ---------- attempts that sleep as long as they can ----------

  const NEVER_STARTED := Failure.Failure(ServerError, "", "57P03", "")

  function FailureOf(cls: RetryClass): RetryPolicy.Failure {
    match cls
    case NoRetry => Failure.Failure(ServerError, "", "42601", "")
    case NotStarted => NEVER_STARTED
    case ConnectionLost => Failure.Failure(ServerError, "", "57P01", "")
    case Deadline => Failure.Failure(SocketReadFailed, "io deadline exceeded", "", "")
    case RolledBack => Failure.Failure(ServerError, "", "40001", "")
  }

  /** BEGIN fails on every try but the last, and the body fails as told. */
  function Slow(cfg: Config, body: Body, now: nat): Script {
    Script(j => OpenTry(Some(0), true, Reply(j + 1 >= cfg.attempts, NEVER_STARTED), true), body, [],
           CommitEnv(true, false, Reply(true, NEVER_STARTED), Reply(true, NEVER_STARTED)), false,
           Reply(true, NEVER_STARTED), now, true)
  }

  lemma {:induction false} SlowOpens(cfg: Config, env: nat -> OpenTry, i: nat)
    requires i < cfg.attempts
    requires forall j: nat :: env(j) == OpenTry(Some(0), true, Reply(j + 1 >= cfg.attempts, NEVER_STARTED), true)
    ensures OpenError(false, cfg.attempts, env, i).None? && OpenSleep(false, cfg, env, i) == NotStartedSum(cfg, i, cfg.attempts - 1)
    decreases cfg.attempts - i
  {
    if i + 1 < cfg.attempts { SlowOpens(cfg, env, i + 1); }
  }

  lemma SlowSleeps(cfg: Config, body: Body, now: nat)
    requires cfg.attempts >= 1
    ensures AttemptSleep(false, cfg, Slow(cfg, body, now)) == TriesSum(cfg)
    ensures body.ReturnsError? ==> OutcomeOf(false, cfg, Slow(cfg, body, now)) == Outcome.Failure(body.f, false)
    ensures body.Throws? ==> OutcomeOf(false, cfg, Slow(cfg, body, now)).Thrown?
  {
    SlowOpens(cfg, Slow(cfg, body, now).open, 0);
  }

  lemma ClassOf(cls: RetryClass)
    ensures cls != NoRetry ==> TxClass(FailureOf(cls)) == cls
  {
  }

  // ---------- the longest call ----------

  /** The class of the i-th failure: every NotStarted retry, every rollback, one loss, one deadline. */
  function ClassAt(cfg: Config, i: nat): RetryClass {
    if i + 1 < cfg.attempts then NotStarted
    else if i + 2 < 2 * cfg.attempts then RolledBack
    else if i + 2 == 2 * cfg.attempts then ConnectionLost
    else Deadline
  }

  /** The counters by then. */
  function CountersAt(cfg: Config, i: nat): Budget
    requires cfg.attempts >= 1 && i <= 2 * cfg.attempts
  {
    Budget(i, if i + 1 < 2 * cfg.attempts then 0 else 1, if i < 2 * cfg.attempts then 0 else 1,
           if i < cfg.attempts then 0 else if i + 2 < 2 * cfg.attempts then i - (cfg.attempts - 1) else cfg.attempts - 1)
  }

  function DelayAt(cfg: Config, i: nat): nat {
    if i + 1 < cfg.attempts then TransientDelay(cfg, i)
    else if i + 2 < 2 * cfg.attempts then RollbackDelay(i - (cfg.attempts - 1))
    else 0
  }

  /** When attempt i begins, if nothing but sleep takes time. */
  function StartOf(cfg: Config, i: nat): nat
    requires cfg.attempts >= 1
  {
    if i == 0 then 0 else StartOf(cfg, i - 1) + TriesSum(cfg) + DelayAt(cfg, i - 1)
  }

  lemma CountersStep(cfg: Config, i: nat)
    requires cfg.attempts >= 1 && i < 2 * cfg.attempts
    ensures Next(cfg, CountersAt(cfg, i), ClassAt(cfg, i)) == CountersAt(cfg, i + 1)
    ensures Backoff(cfg, CountersAt(cfg, i), ClassAt(cfg, i)) == Some(DelayAt(cfg, i))
    ensures BackoffLeft(cfg, CountersAt(cfg, i)) == DelayAt(cfg, i) + BackoffLeft(cfg, CountersAt(cfg, i + 1))
  {
  }

  /** The longest call sleeps as much as any call can. */
  lemma {:induction false} LongestIsWorst(cfg: Config, i: nat)
    requires cfg.attempts >= 1 && i <= 2 * cfg.attempts
    ensures StartOf(cfg, i) + BackoffLeft(cfg, CountersAt(cfg, i)) == i * TriesSum(cfg) + BackoffLeft(cfg, UNTOUCHED)
    decreases i
  {
    if i > 0 {
      LongestIsWorst(cfg, i - 1);
      CountersStep(cfg, i - 1);
      OneTimesMore(i - 1, TriesSum(cfg));
    }
  }

  lemma StartOfLast(cfg: Config)
    requires cfg.attempts >= 1
    ensures StartOf(cfg, 2 * cfg.attempts) + TriesSum(cfg) == WorstSleep(cfg)
  {
    LongestIsWorst(cfg, 2 * cfg.attempts);
    OneTimesMore(2 * cfg.attempts, TriesSum(cfg));
  }

  // ---------- cut off where the budget ends ----------

  /** The longest call up to attempt k. That one throws, or, when `early`, loses its
      connection, and the one after it throws. */
  function BodyAt(cfg: Config, k: nat, early: bool, i: nat): Body {
    if i < k then ReturnsError(FailureOf(ClassAt(cfg, i)))
    else if i == k && early then ReturnsError(FailureOf(ConnectionLost))
    else Throws
  }

  function AttemptAt(cfg: Config, started: nat, k: nat, early: bool, i: nat): Script
    requires cfg.attempts >= 1
  {
    Slow(cfg, BodyAt(cfg, k, early, i), started + StartOf(cfg, i) + TriesSum(cfg))
  }

  function Longest(cfg: Config, started: nat, k: nat, early: bool): nat -> Script
    requires cfg.attempts >= 1
  {
    (i: nat) => AttemptAt(cfg, started, k, early, i)
  }

  ghost predicate IsLongest(env: nat -> Script, cfg: Config, started: nat, k: nat, early: bool)
    requires cfg.attempts >= 1
  {
    forall i: nat {:trigger AttemptAt(cfg, started, k, early, i)} :: env(i) == AttemptAt(cfg, started, k, early, i)
  }

  lemma SlowRetried(cfg: Config, o: Opts, started: nat, b: Budget, cls: RetryClass, now: nat)
    requires ValidConfig(cfg) && 0 < o.budgetMs && started + o.budgetMs < U64
    requires cls != NoRetry && Backoff(cfg, b, cls).Some?
    requires started <= now && now + Backoff(cfg, b, cls).value < started + o.budgetMs
    ensures var s := Slow(cfg, ReturnsError(FailureOf(cls)), now);
            && Retried(false, cfg, o, started, b, s) && Delayed(false, cfg, o, started, b, s)
            && DelayAfter(false, cfg, o, started, b, s) == Backoff(cfg, b, cls).value
            && FailedAs(false, cfg, s).cls == cls
            && AttemptSleep(false, cfg, s) == TriesSum(cfg)
  {
    ClassOf(cls);
    SlowSleeps(cfg, ReturnsError(FailureOf(cls)), now);
    BudgetComparison(o, started, now, Backoff(cfg, b, cls).value);
  }

  /** The call ends with this attempt. */
  lemma SlowEnds(cfg: Config, o: Opts, started: nat, env: nat -> Script, b: Budget, at: nat, now: nat)
    requires cfg.attempts >= 1 && env(b.attempt) == Slow(cfg, Throws, now) && at + TriesSum(cfg) <= now
    ensures ClockKept(false, cfg, o, started, env, b, at) && SleepFrom(false, cfg, o, started, env, b) == TriesSum(cfg)
  {
    SlowSleeps(cfg, Throws, now);
  }

  /** The attempt that begins at `at` with counters b sleeps as long as it can, fails as cls
      says, and is followed by another one after d milliseconds. */
  ghost predicate GoesOn(cfg: Config, o: Opts, started: nat, s: Script, b: Budget, at: nat, cls: RetryClass, d: nat, next: Budget)
    requires cfg.attempts >= 1
  {
    && cls != NoRetry && Backoff(cfg, b, cls) == Some(d) && next == Next(cfg, b, cls)
    && s == Slow(cfg, ReturnsError(FailureOf(cls)), at + TriesSum(cfg))
    && started <= at && at + TriesSum(cfg) + d < started + o.budgetMs
  }

  lemma SlowGoesOn(cfg: Config, o: Opts, started: nat, env: nat -> Script, b: Budget, at: nat, cls: RetryClass, d: nat, next: Budget)
    requires ValidConfig(cfg) && 0 < o.budgetMs && started + o.budgetMs < U64
    requires GoesOn(cfg, o, started, env(b.attempt), b, at, cls, d, next)
    requires ClockKept(false, cfg, o, started, env, next, at + TriesSum(cfg) + d)
    ensures ClockKept(false, cfg, o, started, env, b, at)
    ensures SleepFrom(false, cfg, o, started, env, b)
         == TriesSum(cfg) + d + SleepFrom(false, cfg, o, started, env, next)
  {
    SlowRetried(cfg, o, started, b, cls, at + TriesSum(cfg));
  }

  lemma {:induction false} StartsGrow(cfg: Config, i: nat, k: nat)
    requires cfg.attempts >= 1 && i <= k
    ensures StartOf(cfg, i) <= StartOf(cfg, k)
    decreases k
  {
    if i < k { StartsGrow(cfg, i, k - 1); }
  }

  lemma LongestGoesOn(env: nat -> Script, cfg: Config, o: Opts, started: nat, k: nat, early: bool, i: nat)
    returns (b: Budget, cls: RetryClass, next: Budget)
    requires cfg.attempts >= 1 && IsLongest(env, cfg, started, k, early)
    requires i < k <= 2 * cfg.attempts && StartOf(cfg, k) < o.budgetMs
    ensures b == CountersAt(cfg, i) && b.attempt == i && next == CountersAt(cfg, i + 1)
    ensures GoesOn(cfg, o, started, env(i), b, started + StartOf(cfg, i), cls, DelayAt(cfg, i), next)
  {
    b, cls, next := CountersAt(cfg, i), ClassAt(cfg, i), CountersAt(cfg, i + 1);
    CountersStep(cfg, i);
    StartsGrow(cfg, i + 1, k);
    assert env(i) == AttemptAt(cfg, started, k, early, i);
  }

  lemma EarlyGoesOn(env: nat -> Script, cfg: Config, o: Opts, started: nat, k: nat) returns (b: Budget, next: Budget)
    requires cfg.attempts >= 1 && IsLongest(env, cfg, started, k, true)
    requires k + 1 < 2 * cfg.attempts && StartOf(cfg, k) + TriesSum(cfg) < o.budgetMs
    ensures b == CountersAt(cfg, k) && b.attempt == k && next.attempt == k + 1
    ensures GoesOn(cfg, o, started, env(k), b, started + StartOf(cfg, k), ConnectionLost, 0, next)
    ensures env(k + 1) == Slow(cfg, Throws, started + StartOf(cfg, k + 1) + TriesSum(cfg))
  {
    b := CountersAt(cfg, k);
    next := Next(cfg, b, ConnectionLost);
    assert env(k) == AttemptAt(cfg, started, k, true, k) && env(k + 1) == AttemptAt(cfg, started, k, true, k + 1);
  }

  /** The call sleeps `total` from here on. */
  ghost predicate Sleeps(cfg: Config, o: Opts, started: nat, env: nat -> Script, b: Budget, at: nat, total: nat) {
    ClockKept(false, cfg, o, started, env, b, at) && SleepFrom(false, cfg, o, started, env, b) == total
  }

  lemma SleepsOn(cfg: Config, o: Opts, started: nat, env: nat -> Script, b: Budget, at: nat,
                 cls: RetryClass, d: nat, next: Budget, rest: nat)
    requires ValidConfig(cfg) && 0 < o.budgetMs && started + o.budgetMs < U64
    requires GoesOn(cfg, o, started, env(b.attempt), b, at, cls, d, next)
    requires Sleeps(cfg, o, started, env, next, at + TriesSum(cfg) + d, rest)
    ensures Sleeps(cfg, o, started, env, b, at, TriesSum(cfg) + d + rest)
  {
    SlowGoesOn(cfg, o, started, env, b, at, cls, d, next);
  }

  lemma LongestStep(env: nat -> Script, cfg: Config, o: Opts, started: nat, k: nat, early: bool, i: nat, rest: nat)
    requires ValidConfig(cfg) && 0 < o.budgetMs && started + o.budgetMs < U64 && IsLongest(env, cfg, started, k, early)
    requires i < k <= 2 * cfg.attempts && StartOf(cfg, k) < o.budgetMs
    requires Sleeps(cfg, o, started, env, CountersAt(cfg, i + 1), started + StartOf(cfg, i + 1), rest)
    ensures Sleeps(cfg, o, started, env, CountersAt(cfg, i), started + StartOf(cfg, i), TriesSum(cfg) + DelayAt(cfg, i) + rest)
  {
    var b, cls, next := LongestGoesOn(env, cfg, o, started, k, early, i);
    SleepsOn(cfg, o, started, env, b, started + StartOf(cfg, i), cls, DelayAt(cfg, i), next, rest);
  }

  /** One attempt more, and then the end. */
  lemma SleepsTwice(env: nat -> Script, cfg: Config, o: Opts, started: nat, b: Budget, at: nat, next: Budget, now: nat)
    requires ValidConfig(cfg) && 0 < o.budgetMs && started + o.budgetMs < U64
    requires GoesOn(cfg, o, started, env(b.attempt), b, at, ConnectionLost, 0, next)
    requires env(next.attempt) == Slow(cfg, Throws, now) && at + 2 * TriesSum(cfg) <= now
    ensures Sleeps(cfg, o, started, env, b, at, 2 * TriesSum(cfg))
  {
    SlowEnds(cfg, o, started, env, next, at + TriesSum(cfg), now);
    SleepsOn(cfg, o, started, env, b, at, ConnectionLost, 0, next, TriesSum(cfg));
  }

  lemma EarlyEnds(env: nat -> Script, cfg: Config, o: Opts, started: nat, k: nat)
    requires ValidConfig(cfg) && 0 < o.budgetMs && started + o.budgetMs < U64 && IsLongest(env, cfg, started, k, true)
    requires k + 1 < 2 * cfg.attempts && StartOf(cfg, k) + TriesSum(cfg) < o.budgetMs
    ensures Sleeps(cfg, o, started, env, CountersAt(cfg, k), started + StartOf(cfg, k), 2 * TriesSum(cfg))
  {
    var b, next := EarlyGoesOn(env, cfg, o, started, k);
    SleepsTwice(env, cfg, o, started, b, started + StartOf(cfg, k), next, started + StartOf(cfg, k + 1) + TriesSum(cfg));
  }

  lemma PlainEnds(env: nat -> Script, cfg: Config, o: Opts, started: nat, k: nat)
    requires cfg.attempts >= 1 && k <= 2 * cfg.attempts && IsLongest(env, cfg, started, k, false)
    ensures Sleeps(cfg, o, started, env, CountersAt(cfg, k), started + StartOf(cfg, k), TriesSum(cfg))
  {
    assert env(k) == AttemptAt(cfg, started, k, false, k);
    SlowEnds(cfg, o, started, env, CountersAt(cfg, k), started + StartOf(cfg, k), started + StartOf(cfg, k) + TriesSum(cfg));
  }

  function SleepAtEnd(cfg: Config, early: bool): nat
    requires cfg.attempts >= 1
  {
    if early then 2 * TriesSum(cfg) else TriesSum(cfg)
  }

  lemma {:induction false} LongestRuns(env: nat -> Script, cfg: Config, o: Opts, started: nat, k: nat, early: bool, i: nat)
    requires ValidConfig(cfg) && 0 < o.budgetMs && started + o.budgetMs < U64 && IsLongest(env, cfg, started, k, early)
    requires i <= k <= 2 * cfg.attempts && StartOf(cfg, k) < o.budgetMs
    requires early ==> k + 1 < 2 * cfg.attempts && StartOf(cfg, k) + TriesSum(cfg) < o.budgetMs
    ensures StartOf(cfg, i) <= StartOf(cfg, k)
    ensures Sleeps(cfg, o, started, env, CountersAt(cfg, i), started + StartOf(cfg, i),
                   StartOf(cfg, k) - StartOf(cfg, i) + SleepAtEnd(cfg, early))
    decreases k - i
  {
    StartsGrow(cfg, i, k);
    if i == k {
      if early { EarlyEnds(env, cfg, o, started, k); } else { PlainEnds(env, cfg, o, started, k); }
    } else {
      LongestRuns(env, cfg, o, started, k, early, i + 1);
      LongestStep(env, cfg, o, started, k, early, i, StartOf(cfg, k) - StartOf(cfg, i + 1) + SleepAtEnd(cfg, early));
    }
  }

  // ---------- real transactions ----------

  /** One BEGIN can sleep as long as any delay after a rollback, as by default. */
  predicate BeginOutlastsRollbacks(cfg: Config)
    requires cfg.attempts >= 1
  {
    forall j | 0 <= j < cfg.attempts - 1 :: RollbackDelay(j) <= TriesSum(cfg)
  }

  lemma {:induction false} TermInSum(cfg: Config, from: nat, i: nat, to: nat)
    requires from <= i < to
    ensures TransientDelay(cfg, i) <= NotStartedSum(cfg, from, to)
    decreases i - from
  {
    if from < i { TermInSum(cfg, from + 1, i, to); }
  }

  lemma DelayFits(cfg: Config, i: nat)
    requires cfg.attempts >= 1 && BeginOutlastsRollbacks(cfg)
    ensures DelayAt(cfg, i) <= TriesSum(cfg)
  {
    if i + 1 < cfg.attempts { TermInSum(cfg, 0, i, cfg.attempts - 1); }
  }

  /** The last attempt of the longest call that begins within the budget. */
  lemma {:induction false} LastInTime(cfg: Config, budget: nat, n: nat) returns (k: nat)
    requires cfg.attempts >= 1 && 0 < budget
    ensures k <= n && StartOf(cfg, k) < budget && (k < n ==> budget <= StartOf(cfg, k + 1))
    decreases n
  {
    if StartOf(cfg, n) < budget {
      k := n;
    } else {
      k := LastInTime(cfg, budget, n - 1);
    }
  }

  lemma NotCoveredWhenShort(cfg: Config, o: Opts, started: nat) returns (env: nat -> Script)
    requires ValidConfig(cfg) && BeginOutlastsRollbacks(cfg)
    requires 0 < o.budgetMs <= WorstSleep(cfg) && started + o.budgetMs < U64
    ensures ClockKept(false, cfg, o, started, env, UNTOUCHED, started)
    ensures SleepFrom(false, cfg, o, started, env, UNTOUCHED) >= o.budgetMs
  {
    var k := LastInTime(cfg, o.budgetMs, 2 * cfg.attempts);
    var early := StartOf(cfg, k) + TriesSum(cfg) < o.budgetMs;
    StartOfLast(cfg);
    DelayFits(cfg, k);
    env := Longest(cfg, started, k, early);
    LongestRuns(env, cfg, o, started, k, early, 0);
  }

  /** A budget covers all the backoff of every run_tx on a real transaction if and only if it
      exceeds the most there is. */
  lemma BudgetCoversIff(cfg: Config, o: Opts, started: nat)
    requires ValidConfig(cfg) && BeginOutlastsRollbacks(cfg) && 0 < o.budgetMs && started + o.budgetMs < U64
    ensures Covered(false, cfg, o, started) <==> WorstSleep(cfg) < o.budgetMs
  {
    if WorstSleep(cfg) < o.budgetMs {
      forall env: nat -> Script | ClockKept(false, cfg, o, started, env, UNTOUCHED, started)
        ensures SleepFrom(false, cfg, o, started, env, UNTOUCHED) < o.budgetMs
      {
        RealSleepBounded(cfg, o, started, env);
      }
    } else {
      var env := NotCoveredWhenShort(cfg, o, started);
    }
  }

  // With a base of 1 ms and a budget of 10 ms no delay after a rollback is granted.

  const SMALL := Config(2, 1)

  lemma SmallDelay(o: Opts, started: nat, b: Budget, s: Script)
    requires o.budgetMs == 10 && Delayed(false, SMALL, o, started, b, s)
    requires started <= s.now && s.now + DelayAfter(false, SMALL, o, started, b, s) < U64
    ensures DelayAfter(false, SMALL, o, started, b, s) <= 1 && FailedAs(false, SMALL, s).cls != RolledBack
  {
    DelayWithinBudget(false, SMALL, o, started, b, s);
    assert Power(3, 0) == 1 && Power(2, 0) == 1;
  }

  /** The retries left that are not rollbacks. */
  function OthersLeft(b: Budget): nat {
    Minus(1, b.attempt) + (if b.connectionLost == 0 then 1 else 0) + (if b.deadline == 0 then 1 else 0)
  }

  lemma SmallAttempt(s: Script)
    ensures AttemptSleep(false, SMALL, s) <= 1
  {
    AttemptSleepBounded(false, SMALL, s);
    assert Power(3, 0) == 1 && NotStartedSum(SMALL, 1, 1) == 0;
  }

  lemma SmallRetry(o: Opts, started: nat, b: Budget, s: Script)
    requires o.budgetMs == 10 && Retried(false, SMALL, o, started, b, s)
    requires started <= s.now && s.now + DelayAfter(false, SMALL, o, started, b, s) < U64
    ensures DelayAfter(false, SMALL, o, started, b, s) <= 1
    ensures OthersLeft(Next(SMALL, b, FailedAs(false, SMALL, s).cls)) < OthersLeft(b)
  {
    SmallDelay(o, started, b, s);
  }

  lemma {:induction false} SmallSleep(o: Opts, started: nat, env: nat -> Script, b: Budget, at: nat)
    requires o.budgetMs == 10 && started <= at && ClockKept(false, SMALL, o, started, env, b, at)
    ensures SleepFrom(false, SMALL, o, started, env, b) <= 2 + 2 * OthersLeft(b)
    decreases Potential(SMALL, b)
  {
    var s := env(b.attempt);
    SmallAttempt(s);
    if Retried(false, SMALL, o, started, b, s) {
      SmallRetry(o, started, b, s);
      RetrySpends(false, SMALL, o, started, b, s);
      SmallSleep(o, started, env, Next(SMALL, b, FailedAs(false, SMALL, s).cls),
                 s.now + DelayAfter(false, SMALL, o, started, b, s));
    } else if Delayed(false, SMALL, o, started, b, s) {
      SmallDelay(o, started, b, s);
    }
  }

  /** Without its condition on rollbacks BudgetCoversIff fails: a budget below the most there
      is, and covered all the same. */
  lemma ShortBudgetMayCover(o: Opts, started: nat)
    requires o.budgetMs == 10
    ensures o.budgetMs <= WorstSleep(SMALL) && Covered(false, SMALL, o, started)
  {
    assert Power(3, 0) == 1 && Power(2, 0) == 1 && NotStartedSum(SMALL, 1, 1) == 0 && RolledBackSum(1, 1) == 0;
    assert TriesSum(SMALL) == 1 && BackoffLeft(SMALL, UNTOUCHED) == 51;
    forall env: nat -> Script | ClockKept(false, SMALL, o, started, env, UNTOUCHED, started)
      ensures SleepFrom(false, SMALL, o, started, env, UNTOUCHED) < o.budgetMs
    {
      SmallSleep(o, started, env, UNTOUCHED, started);
    }
  }

  /** With the default settings two failed BEGINs sleep 800 ms, whatever the budget. */
  lemma TwoFailedBegins(o: Opts, started: nat)
    requires 0 < o.budgetMs && started + o.budgetMs < U64
    ensures var cfg := Config(3, 200);
            var env := Longest(cfg, started, 0, false);
            && ClockKept(false, cfg, o, started, env, UNTOUCHED, started)
            && |Attempts(false, cfg, o, started, env, UNTOUCHED)| == 1
            && SleepFrom(false, cfg, o, started, env, UNTOUCHED) == 800
  {
    var cfg := Config(3, 200);
    LongestRuns(Longest(cfg, started, 0, false), cfg, o, started, 0, false, 0);
    SlowSleeps(cfg, Throws, started + TriesSum(cfg));
    assert Power(3, 1) == 3 && NotStartedSum(cfg, 2, 2) == 0;
    assert TransientDelay(cfg, 0) == 200 && TransientDelay(cfg, 1) == 600;
  }

  // ---------- emulated transactions ----------

  /** A statement whose first try never starts. */
  const SLOW_STATEMENT: Call := DoQuery(true, (i: nat) => QueryTry(true, Reply(i > 0, NEVER_STARTED), true, Some(0), true))

  ghost predicate AllSlow(calls: seq<Call>) { forall i | 0 <= i < |calls| :: calls[i] == SLOW_STATEMENT }

  function Slowly(n: nat): (r: BodyCalls)
    ensures |r| == n && AllSlow(r)
  {
    seq(n, (i: nat) => SLOW_STATEMENT)
  }

  lemma SlowStatement(cfg: Config)
    requires cfg.attempts >= 2
    ensures QuerySleep(true, cfg, SLOW_STATEMENT.query, 0) == TransientDelay(cfg, 0)
    ensures var a := QueryAnswer(true, cfg.attempts, true, SLOW_STATEMENT.query, 0); a.active && a.held
  {
    var env := SLOW_STATEMENT.query;
    assert QuerySleep(true, cfg, env, 1) == 0;
    assert QueryAnswer(true, cfg.attempts, true, env, 1).active;
  }

  /** A statement that keeps failing that way sleeps the delays of all its tries. */
  lemma {:induction false} SlowestStatement(cfg: Config, env: nat -> QueryTry, i: nat)
    requires i < cfg.attempts
    requires forall j: nat :: env(j) == QueryTry(true, Reply(false, NEVER_STARTED), true, Some(0), true)
    ensures QuerySleep(true, cfg, env, i) == NotStartedSum(cfg, i, cfg.attempts - 1)
    decreases cfg.attempts - i
  {
    if i + 1 < cfg.attempts { SlowestStatement(cfg, env, i + 1); }
  }

  lemma {:induction false} SlowBody(cfg: Config, calls: BodyCalls, n: nat)
    requires ValidConfig(cfg) && cfg.attempts >= 2 && cfg.baseMs > 0 && AllSlow(calls) && n <= |calls|
    ensures LiveTo(true, cfg, calls, n) == Live(true, true, []) && BodySleep(true, cfg, calls, n) >= n
    decreases n
  {
    if n > 0 {
      SlowBody(cfg, calls, n - 1);
      SlowStatement(cfg);
    }
  }

  /** An emulated transaction opens at once, and its body may have any number of statements:
      no budget covers their sleep unless there is none. */
  lemma EmulatedCoversIff(cfg: Config, o: Opts, started: nat)
    requires ValidConfig(cfg) && 0 < o.budgetMs < U64
    ensures Covered(true, cfg, o, started) <==> cfg.attempts == 1 || cfg.baseMs == 0
  {
    if cfg.attempts == 1 || cfg.baseMs == 0 {
      CoveredWithoutTries(true, cfg, o, started);
    } else {
      var slow := Slow(cfg, Throws, 0).(calls := Slowly(o.budgetMs));
      var script := slow.(now := started + AttemptSleep(true, cfg, slow));
      var env := (i: nat) => script;
      SlowBody(cfg, script.calls, o.budgetMs);
      assert AttemptSleep(true, cfg, script) == AttemptSleep(true, cfg, slow) >= o.budgetMs;
      assert ClockKept(true, cfg, o, started, env, UNTOUCHED, started);
      assert SleepFrom(true, cfg, o, started, env, UNTOUCHED) >= o.budgetMs;
    }
  }
}
