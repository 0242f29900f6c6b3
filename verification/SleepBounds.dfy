/** How long the retries of a run_tx sleep in all: between its attempts, where the budget is
    asked, and inside them, between the tries of BEGIN and of an emulated body's statements,
    where it is not. */
module SleepBounds {
  import opened Wrappers
  import opened RetryPolicy
  import opened RetryBounds
  import opened Transaction
  import opened RunTx

  /** The most one BEGIN, or one statement of an emulated transaction, asks to sleep. */
  function TriesSum(cfg: Config): nat
    requires cfg.attempts >= 1
  {
    NotStartedSum(cfg, 0, cfg.attempts - 1)
  }

  // ---------- inside one attempt ----------

  lemma {:induction false} OpenSleepBounded(emulated: bool, cfg: Config, env: nat -> OpenTry, i: nat)
    requires cfg.attempts >= 1
    ensures OpenSleep(emulated, cfg, env, i) <= if emulated then 0 else NotStartedSum(cfg, i, cfg.attempts - 1)
    decreases cfg.attempts - i
  {
    if i + 1 < cfg.attempts { OpenSleepBounded(emulated, cfg, env, i + 1); }
  }

  lemma {:induction false} QuerySleepBounded(emulated: bool, cfg: Config, env: nat -> QueryTry, i: nat)
    requires cfg.attempts >= 1
    ensures QuerySleep(emulated, cfg, env, i) <= if emulated then NotStartedSum(cfg, i, cfg.attempts - 1) else 0
    decreases cfg.attempts - i
  {
    if i + 1 < cfg.attempts { QuerySleepBounded(emulated, cfg, env, i + 1); }
  }

  /** The statements among the first n calls. */
  function Statements(calls: seq<Call>, n: nat): nat
    requires n <= |calls|
  {
    if n == 0 then 0 else Statements(calls, n - 1) + if calls[n - 1].DoQuery? then 1 else 0
  }

  lemma OneTimesMore(k: nat, m: nat)
    ensures (k + 1) * m == k * m + m
  {
  }

  lemma {:induction false} BodySleepBounded(emulated: bool, cfg: Config, calls: BodyCalls, n: nat)
    requires cfg.attempts >= 1 && n <= |calls|
    ensures BodySleep(emulated, cfg, calls, n) <= if emulated then Statements(calls, n) * TriesSum(cfg) else 0
    decreases n
  {
    if n > 0 {
      BodySleepBounded(emulated, cfg, calls, n - 1);
      OneTimesMore(Statements(calls, n - 1), TriesSum(cfg));
      if calls[n - 1].DoQuery? { QuerySleepBounded(emulated, cfg, calls[n - 1].query, 0); }
    }
  }

  /** What may be tried several times in an attempt: BEGIN, or without a BEGIN the statements. */
  function Tried(emulated: bool, s: Script): nat { if emulated then Statements(s.calls, |s.calls|) else 1 }

  lemma AttemptSleepBounded(emulated: bool, cfg: Config, s: Script)
    requires cfg.attempts >= 1
    ensures AttemptSleep(emulated, cfg, s) <= Tried(emulated, s) * TriesSum(cfg)
  {
    OpenSleepBounded(emulated, cfg, s.open, 0);
    BodySleepBounded(emulated, cfg, s.calls, |s.calls|);
    assert 1 * TriesSum(cfg) == TriesSum(cfg);
  }

  // ---------- the whole call ----------

  function Inside(emulated: bool, cfg: Config, made: seq<Script>): nat {
    if made == [] then 0 else AttemptSleep(emulated, cfg, made[0]) + Inside(emulated, cfg, made[1..])
  }

  function AllTried(emulated: bool, made: seq<Script>): nat {
    if made == [] then 0 else Tried(emulated, made[0]) + AllTried(emulated, made[1..])
  }

  /** All sleep is the sleep between the attempts and the sleep inside them. */
  lemma {:induction false} SleepIsSum(emulated: bool, cfg: Config, o: Opts, started: nat, env: nat -> Script, b: Budget)
    ensures Granted(cfg, o, started, b, Waits(emulated, cfg, o, started, env, b))
    ensures SleepFrom(emulated, cfg, o, started, env, b)
         == TotalBackoff(cfg, o, started, b, Waits(emulated, cfg, o, started, env, b))
            + Inside(emulated, cfg, Attempts(emulated, cfg, o, started, env, b))
    decreases Potential(cfg, b)
  {
    var s, waits := env(b.attempt), Waits(emulated, cfg, o, started, env, b);
    WaitsAreGranted(emulated, cfg, o, started, env, b);
    AttemptsUnfold(emulated, cfg, o, started, env, b);
    var made := Attempts(emulated, cfg, o, started, env, b);
    if Retried(emulated, cfg, o, started, b, s) {
      RetrySpends(emulated, cfg, o, started, b, s);
      var next := Next(cfg, b, FailedAs(emulated, cfg, s).cls);
      SleepIsSum(emulated, cfg, o, started, env, next);
      assert made[1..] == Attempts(emulated, cfg, o, started, env, next);
      assert waits[1..] == Waits(emulated, cfg, o, started, env, next);
    } else {
      assert made[1..] == [];
      if Delayed(emulated, cfg, o, started, b, s) { assert waits[1..] == []; }
    }
  }

  lemma Distribute(k: nat, l: nat, m: nat)
    ensures (k + l) * m == k * m + l * m
  {
  }

  lemma {:induction false} InsideBounded(emulated: bool, cfg: Config, made: seq<Script>)
    requires cfg.attempts >= 1
    ensures Inside(emulated, cfg, made) <= AllTried(emulated, made) * TriesSum(cfg)
    decreases |made|
  {
    if made != [] {
      AttemptSleepBounded(emulated, cfg, made[0]);
      InsideBounded(emulated, cfg, made[1..]);
      Distribute(Tried(emulated, made[0]), AllTried(emulated, made[1..]), TriesSum(cfg));
    }
  }

  /** All backoff of a run_tx, whatever it meets: the backoff between the attempts, and
      the backoff of every BEGIN, or of every statement of an emulated body, on top. */
  lemma SleepBounded(emulated: bool, cfg: Config, o: Opts, started: nat, env: nat -> Script)
    requires ValidConfig(cfg)
    ensures SleepFrom(emulated, cfg, o, started, env, UNTOUCHED)
         <= BackoffLeft(cfg, UNTOUCHED)
            + AllTried(emulated, Attempts(emulated, cfg, o, started, env, UNTOUCHED)) * TriesSum(cfg)
  {
    SleepIsSum(emulated, cfg, o, started, env, UNTOUCHED);
    BackoffWithinSums(cfg, o, started, UNTOUCHED, Waits(emulated, cfg, o, started, env, UNTOUCHED));
    InsideBounded(emulated, cfg, Attempts(emulated, cfg, o, started, env, UNTOUCHED));
  }

  lemma {:induction false} OneBeginPerAttempt(made: seq<Script>)
    ensures AllTried(false, made) == |made|
    decreases |made|
  {
    if made != [] { OneBeginPerAttempt(made[1..]); }
  }

  /** The most backoff of a real transaction. */
  function WorstSleep(cfg: Config): nat
    requires cfg.attempts >= 1
  {
    BackoffLeft(cfg, UNTOUCHED) + (2 * cfg.attempts + 1) * TriesSum(cfg)
  }

  lemma Widen(sleep: nat, left: nat, k: nat, l: nat, m: nat)
    requires sleep <= left + k * m && k <= l
    ensures sleep <= left + l * m
  {
    Distribute(k, l - k, m);
  }

  lemma RealSleepBounded(cfg: Config, o: Opts, started: nat, env: nat -> Script)
    requires ValidConfig(cfg)
    ensures SleepFrom(false, cfg, o, started, env, UNTOUCHED) <= WorstSleep(cfg)
  {
    var made := Attempts(false, cfg, o, started, env, UNTOUCHED);
    SleepBounded(false, cfg, o, started, env);
    OneBeginPerAttempt(made);
    assert |made| <= 2 * cfg.attempts + 1 by { AttemptsWithinPotential(false, cfg, o, started, env, UNTOUCHED); }
    Widen(SleepFrom(false, cfg, o, started, env, UNTOUCHED), BackoffLeft(cfg, UNTOUCHED),
          |made|, 2 * cfg.attempts + 1, TriesSum(cfg));
  }

  lemma TwiceFits(n: nat, sum: nat, base: nat, top: nat)
    requires 2 * sum + base <= top
    ensures 2 * n * sum + n * base <= n * top
  {
    Scale(n, 2 * sum + base, top);
    assert n * (2 * sum + base) == n * (2 * sum) + n * base;
  }

  /** ... in closed form, for A attempts (A + 1) * base * (3^(A-1) - 1) + 50 * (2^(A-1) - 1). */
  lemma WorstSleepClosedForm(cfg: Config)
    requires cfg.attempts >= 1
    ensures WorstSleep(cfg) + (cfg.attempts + 1) * cfg.baseMs + 50
         <= (cfg.attempts + 1) * (cfg.baseMs * Power(3, cfg.attempts - 1)) + 50 * Power(2, cfg.attempts - 1)
  {
    var n, sum := cfg.attempts + 1, TriesSum(cfg);
    NotStartedClosedForm(cfg, 0, cfg.attempts - 1);
    RolledBackClosedForm(0, cfg.attempts - 1);
    TwiceFits(n, sum, cfg.baseMs, cfg.baseMs * Power(3, cfg.attempts - 1));
    OneTimesMore(2 * cfg.attempts + 1, sum);
    assert 2 * n == 2 * cfg.attempts + 2;
  }

  // ---------- with a clock ----------

  /** The attempt with counters b begins at `at`, and no time is shorter than the sleep in it. */
  predicate ClockKept(emulated: bool, cfg: Config, o: Opts, started: nat, env: nat -> Script, b: Budget, at: nat)
    decreases Potential(cfg, b)
  {
    var s := env(b.attempt);
    var due := s.now + DelayAfter(emulated, cfg, o, started, b, s);
    && at + AttemptSleep(emulated, cfg, s) <= s.now
    && (Delayed(emulated, cfg, o, started, b, s) ==> due < U64)
    && if !Retried(emulated, cfg, o, started, b, s) then true else
       RetrySpends(emulated, cfg, o, started, b, s);
       ClockKept(emulated, cfg, o, started, env, Next(cfg, b, FailedAs(emulated, cfg, s).cls), due)
  }

  /** The last attempt. */
  function Last(emulated: bool, cfg: Config, o: Opts, started: nat, env: nat -> Script, b: Budget): Script
    decreases Potential(cfg, b)
  {
    var s := env(b.attempt);
    if !Retried(emulated, cfg, o, started, b, s) then s else
    RetrySpends(emulated, cfg, o, started, b, s);
    Last(emulated, cfg, o, started, env, Next(cfg, b, FailedAs(emulated, cfg, s).cls))
  }

  lemma {:induction false} LastIsLast(emulated: bool, cfg: Config, o: Opts, started: nat, env: nat -> Script, b: Budget)
    ensures var made := Attempts(emulated, cfg, o, started, env, b);
            made != [] && Last(emulated, cfg, o, started, env, b) == made[|made| - 1]
    decreases Potential(cfg, b)
  {
    var s := env(b.attempt);
    AttemptsUnfold(emulated, cfg, o, started, env, b);
    if Retried(emulated, cfg, o, started, b, s) {
      RetrySpends(emulated, cfg, o, started, b, s);
      LastIsLast(emulated, cfg, o, started, env, Next(cfg, b, FailedAs(emulated, cfg, s).cls));
    }
  }

  lemma DelayWithinBudget(emulated: bool, cfg: Config, o: Opts, started: nat, b: Budget, s: Script)
    requires 0 < o.budgetMs < U64 && Delayed(emulated, cfg, o, started, b, s)
    requires started <= s.now && s.now + DelayAfter(emulated, cfg, o, started, b, s) < U64
    ensures s.now + DelayAfter(emulated, cfg, o, started, b, s) < started + o.budgetMs
  {
    BudgetComparison(o, started, s.now, DelayAfter(emulated, cfg, o, started, b, s));
  }

  lemma {:induction false} LateOnlyInside(emulated: bool, cfg: Config, o: Opts, started: nat, env: nat -> Script, b: Budget, at: nat)
    requires 0 < o.budgetMs < U64 && started <= at < started + o.budgetMs
    requires ClockKept(emulated, cfg, o, started, env, b, at)
    ensures at + SleepFrom(emulated, cfg, o, started, env, b)
          < started + o.budgetMs + AttemptSleep(emulated, cfg, Last(emulated, cfg, o, started, env, b))
    decreases Potential(cfg, b)
  {
    var s := env(b.attempt);
    if Delayed(emulated, cfg, o, started, b, s) {
      DelayWithinBudget(emulated, cfg, o, started, b, s);
      if Retried(emulated, cfg, o, started, b, s) {
        RetrySpends(emulated, cfg, o, started, b, s);
        LateOnlyInside(emulated, cfg, o, started, env, Next(cfg, b, FailedAs(emulated, cfg, s).cls),
                       s.now + DelayAfter(emulated, cfg, o, started, b, s));
      }
    }
  }

  /** All sleep together exceeds the budget by no more than what the last attempt sleeps inside. */
  lemma OvershootsByOneAttempt(emulated: bool, cfg: Config, o: Opts, started: nat, env: nat -> Script)
    requires 0 < o.budgetMs < U64 && ClockKept(emulated, cfg, o, started, env, UNTOUCHED, started)
    ensures var made := Attempts(emulated, cfg, o, started, env, UNTOUCHED);
            && made != []
            && SleepFrom(emulated, cfg, o, started, env, UNTOUCHED)
             < o.budgetMs + AttemptSleep(emulated, cfg, made[|made| - 1])
  {
    LateOnlyInside(emulated, cfg, o, started, env, UNTOUCHED, started);
    LastIsLast(emulated, cfg, o, started, env, UNTOUCHED);
  }
}
