/** run_tx as a sequence of attempts, each with a transaction object of its own, and
    how many of them the server can have committed. */
module RunTx {
  import opened Wrappers
  import opened RetryPolicy
  import opened RetryBounds
  import opened Sequences
  import opened Traffic
  import opened Transaction

  datatype Body = Returns | ReturnsError(f: Failure) | Throws

  /** What happens in one attempt: the body makes `calls` and ends as `body` says;
      `effect` tells whether the server applied the COMMIT, if one was sent. The
      body must not commit by itself; it may roll back. */
  datatype Script = Script(
    open: nat -> OpenTry,
    body: Body,
    calls: BodyCalls,
    commit: CommitEnv,
    effect: bool,
    finish: Reply,
    now: nat,
    slept: bool)

  /** What the body leaves of the transaction. */
  function Left(emulated: bool, cfg: Config, s: Script): Live { LiveTo(emulated, cfg, s.calls, |s.calls|) }

  datatype Outcome = Succeeded | Thrown | Failure(f: RetryPolicy.Failure, atCommit: bool)

  function OutcomeOf(emulated: bool, cfg: Config, s: Script): Outcome {
    var e := OpenError(emulated, cfg.attempts, s.open, 0);
    if e.Some? then Outcome.Failure(e.value, false)
    else match s.body
      case Throws => Thrown
      case ReturnsError(f) => Outcome.Failure(f, false)
      case Returns =>
        var l := Left(emulated, cfg, s);
        if !l.active then Outcome.Failure(NOT_ACTIVE, true) else
        var c := CommitError(emulated, l.held, s.commit);
        if c.None? then Succeeded else Outcome.Failure(c.value, true)
  }

  /** This attempt's COMMIT reached the server and was applied. */
  predicate Applied(emulated: bool, cfg: Config, s: Script) {
    && OpenError(emulated, cfg.attempts, s.open, 0).None? && s.body.Returns? && Left(emulated, cfg, s).active
    && SendsCommit(emulated, Left(emulated, cfg, s).held, s.commit) && s.effect
  }

  /** A failed COMMIT whose fate is known: it never started, or the server said no. */
  predicate Settled(f: RetryPolicy.Failure) {
    Classify(f, false) in {NotStarted, RolledBack} || (f.code == ServerError && Classify(f, false) == NoRetry)
  }

  /** An acknowledged COMMIT is applied, a settled failure is not. */
  predicate Honest(s: Script) {
    (s.commit.reply.ok ==> s.effect) && (!s.commit.reply.ok && Settled(s.commit.reply.f) ==> !s.effect)
  }

  function TxClass(f: RetryPolicy.Failure): RetryClass {
    if f.code == ConnectionClosed && f.error == ACQUIRE_FAILED.error then NoRetry else Classify(f, false)
  }

  function ScopeOf(o: Outcome): RetryScope {
    if o.Failure? && o.atCommit then TransactionCommit else RetryScope.Transaction
  }

  predicate Retried(emulated: bool, cfg: Config, o: Opts, started: nat, b: Budget, s: Script) {
    var out := OutcomeOf(emulated, cfg, s);
    && out.Failure?
    && var d := Delay(cfg, o, b, TxClass(out.f), ScopeOf(out), started, s.now);
       d.Some? && (d.value > 0 ==> s.slept)
  }

  /** The attempts run_tx makes when the environment plays script env(i) in attempt i. */
  function Attempts(emulated: bool, cfg: Config, o: Opts, started: nat, env: nat -> Script, b: Budget): seq<Script>
    decreases Potential(cfg, b)
  {
    var s := env(b.attempt);
    if Retried(emulated, cfg, o, started, b, s) then
      var out := OutcomeOf(emulated, cfg, s);
      GrantSpends(cfg, o, b, TxClass(out.f), ScopeOf(out), started, s.now);
      [s] + Attempts(emulated, cfg, o, started, env, Next(cfg, b, TxClass(out.f)))
    else [s]
  }

  function Commits(emulated: bool, cfg: Config, made: seq<Script>): nat {
    if made == [] then 0
    else (if Applied(emulated, cfg, made[0]) then 1 else 0) + Commits(emulated, cfg, made[1..])
  }

  // ---------- what one attempt comes to ----------

  /** The library's own errors, as the retry decision sees them: a transaction that lost its
      connection is run again, one that could get none is not, and neither is one that its
      body had already spoilt or ended. */
  lemma OwnErrors()
    ensures TxClass(NOT_CONNECTED) == TxClass(LOST_IN_TRANSACTION) == ConnectionLost
    ensures TxClass(ACQUIRE_FAILED) == TxClass(ABORTED_EARLIER) == TxClass(NOT_ACTIVE) == NoRetry
  {
    assert "failed to acquire connection from pool"[0] == 'f';
    assert "connection not OK"[0] == 'c' && "connection lost in transaction"[0] == 'c' && "io deadline exceeded"[0] == 'i';
  }

  /** The attempt got as far as its COMMIT, on a connection that is there. */
  predicate AtCommit(emulated: bool, cfg: Config, s: Script) {
    && OpenError(emulated, cfg.attempts, s.open, 0).None? && s.body.Returns? && Left(emulated, cfg, s).active
    && Left(emulated, cfg, s).held && s.commit.connected
  }

  /** The outcome, case by case: BEGIN's error, the body's, or the server's answer to COMMIT,
      each as it was given, and whether it came at the COMMIT. */
  lemma AttemptOutcome(emulated: bool, cfg: Config, s: Script)
    ensures var begun := OpenError(emulated, cfg.attempts, s.open, 0);
            var out := OutcomeOf(emulated, cfg, s);
            && (begun.Some? ==> out == Outcome.Failure(begun.value, false))
            && (begun.None? && s.body.Throws? ==> out == Thrown)
            && (begun.None? && s.body.ReturnsError? ==> out == Outcome.Failure(s.body.f, false))
            && (begun.None? && s.body.Returns? && !Left(emulated, cfg, s).active ==> out == Outcome.Failure(NOT_ACTIVE, true))
            && (begun.None? && s.body.Returns? && Left(emulated, cfg, s).active && !AtCommit(emulated, cfg, s)
                ==> out == Outcome.Failure(LOST_IN_TRANSACTION, true))
            && (AtCommit(emulated, cfg, s) && emulated ==> out == Succeeded)
            && (AtCommit(emulated, cfg, s) && !emulated && s.commit.inError ==> out == Outcome.Failure(ABORTED_EARLIER, true))
            && (AtCommit(emulated, cfg, s) && !emulated && !s.commit.inError
                ==> out == if s.commit.reply.ok then Succeeded else Outcome.Failure(s.commit.reply.f, true))
  {
  }

  // ---------- attempts that are made again ----------

  /** COMMIT is sent, and the server answers that it undid the transaction. */
  predicate CommitUndone(cfg: Config, s: Script) {
    && AtCommit(false, cfg, s) && !s.commit.inError && !s.commit.reply.ok
    && s.commit.reply.f.code == ServerError && Undone(s.commit.reply.f.sqlstate)
  }

  lemma UndoneIsRetried(cfg: Config, o: Opts, started: nat, b: Budget, s: Script)
    requires o.budgetMs == 0 && CommitUndone(cfg, s) && s.slept
    ensures Retried(false, cfg, o, started, b, s) <==> b.rolledBack + 1 < cfg.attempts
    ensures OutcomeOf(false, cfg, s).Failure? && TxClass(OutcomeOf(false, cfg, s).f) == RolledBack
  {
    AttemptOutcome(false, cfg, s);
    ClassMeans(s.commit.reply.f, false);
    GrantedIff(cfg, o, b, RolledBack, TransactionCommit, started, s.now);
  }

  /** A transaction whose COMMITs all fail that way is attempted as often as configured,
      whatever the options. */
  lemma {:induction false} UndoneIsRepeated(cfg: Config, o: Opts, started: nat, env: nat -> Script, b: Budget)
    requires o.budgetMs == 0 && b.rolledBack < cfg.attempts && forall i: nat :: CommitUndone(cfg, env(i)) && env(i).slept
    ensures |Attempts(false, cfg, o, started, env, b)| == cfg.attempts - b.rolledBack
    decreases Potential(cfg, b)
  {
    var s := env(b.attempt);
    assert CommitUndone(cfg, s) && s.slept;
    UndoneIsRetried(cfg, o, started, b, s);
    if Retried(false, cfg, o, started, b, s) {
      RetrySpends(false, cfg, o, started, b, s);
      UndoneIsRepeated(cfg, o, started, env, Next(cfg, b, RolledBack));
    }
  }

  /** A failure of BEGIN or of the body is followed by another attempt exactly when its class
      is any but NoRetry and the class's counter lasts; one at the COMMIT, if it never started
      or was undone, or if the caller allows a doubtful one to be repeated. */
  lemma RetriedIff(emulated: bool, cfg: Config, o: Opts, started: nat, b: Budget, s: Script)
    requires o.budgetMs == 0 && s.slept && OutcomeOf(emulated, cfg, s).Failure?
    ensures var out := OutcomeOf(emulated, cfg, s);
            var cls := TxClass(out.f);
            Retried(emulated, cfg, o, started, b, s)
            <==> CounterLeft(cfg, b, cls) && (out.atCommit ==> cls in {NotStarted, RolledBack} || o.idempotent)
  {
    var out := OutcomeOf(emulated, cfg, s);
    AllowedIff(o, TxClass(out.f));
    GrantedIff(cfg, o, b, TxClass(out.f), ScopeOf(out), started, s.now);
  }

  /** A canceled sleep ends the call. */
  lemma CutShortIsLast(emulated: bool, cfg: Config, o: Opts, started: nat, env: nat -> Script, b: Budget)
    requires var s := env(b.attempt);
             && OutcomeOf(emulated, cfg, s).Failure? && !s.slept
             && var d := Backoff(cfg, b, TxClass(OutcomeOf(emulated, cfg, s).f)); d.Some? && d.value > 0
    ensures Attempts(emulated, cfg, o, started, env, b) == [env(b.attempt)]
  {
  }

  // ---------- at most one commit ----------

  /** Without idempotent, an attempt that is made again committed nothing. */
  lemma RetriedCommittedNothing(emulated: bool, cfg: Config, o: Opts, started: nat, b: Budget, s: Script)
    requires !o.idempotent && Honest(s) && Retried(emulated, cfg, o, started, b, s)
    ensures !Applied(emulated, cfg, s)
  {
  }

  lemma CommitsCons(emulated: bool, cfg: Config, s: Script, rest: seq<Script>)
    ensures Commits(emulated, cfg, [s] + rest) == (if Applied(emulated, cfg, s) then 1 else 0) + Commits(emulated, cfg, rest)
  {
    assert ([s] + rest)[1..] == rest;
  }

  /** The attempts after a repeated one. */
  function Rest(emulated: bool, cfg: Config, o: Opts, started: nat, env: nat -> Script, b: Budget): seq<Script>
    requires Retried(emulated, cfg, o, started, b, env(b.attempt))
  {
    Attempts(emulated, cfg, o, started, env, Next(cfg, b, TxClass(OutcomeOf(emulated, cfg, env(b.attempt)).f)))
  }

  lemma RetrySpends(emulated: bool, cfg: Config, o: Opts, started: nat, b: Budget, s: Script)
    requires Retried(emulated, cfg, o, started, b, s)
    ensures Potential(cfg, Next(cfg, b, TxClass(OutcomeOf(emulated, cfg, s).f))) < Potential(cfg, b)
  {
    var out := OutcomeOf(emulated, cfg, s);
    GrantSpends(cfg, o, b, TxClass(out.f), ScopeOf(out), started, s.now);
  }

  lemma AttemptsUnfold(emulated: bool, cfg: Config, o: Opts, started: nat, env: nat -> Script, b: Budget)
    ensures var s := env(b.attempt);
            Attempts(emulated, cfg, o, started, env, b)
            == [s] + if Retried(emulated, cfg, o, started, b, s) then Rest(emulated, cfg, o, started, env, b) else []
  {
    assert [env(b.attempt)] == [env(b.attempt)] + [];
  }

  lemma {:induction false} OnlyLastCommits(emulated: bool, cfg: Config, o: Opts, started: nat, env: nat -> Script, b: Budget)
    requires !o.idempotent && forall i :: Honest(env(i))
    ensures var made := Attempts(emulated, cfg, o, started, env, b);
            && made != []
            && Commits(emulated, cfg, made) == (if Applied(emulated, cfg, made[|made| - 1]) then 1 else 0)
    decreases Potential(cfg, b)
  {
    var s := env(b.attempt);
    AttemptsUnfold(emulated, cfg, o, started, env, b);
    if Retried(emulated, cfg, o, started, b, s) {
      RetrySpends(emulated, cfg, o, started, b, s);
      RetriedCommittedNothing(emulated, cfg, o, started, b, s);
      OnlyLastCommits(emulated, cfg, o, started, env, Next(cfg, b, TxClass(OutcomeOf(emulated, cfg, s).f)));
      CommitsCons(emulated, cfg, s, Rest(emulated, cfg, o, started, env, b));
    } else {
      CommitsCons(emulated, cfg, s, []);
    }
  }

  /** The COMMIT was sent and its fate is unknown to the caller. */
  predicate CommitInDoubt(cfg: Config, s: Script) {
    && OpenError(false, cfg.attempts, s.open, 0).None? && s.body.Returns? && Left(false, cfg, s).active
    && SendsCommit(false, Left(false, cfg, s).held, s.commit) && !s.commit.reply.ok && !Settled(s.commit.reply.f)
  }

  /** A real transaction run without idempotent commits at most once, over every
      sequence of BEGIN, body and COMMIT outcomes: success means exactly once,
      an exception never, and an error never unless the last COMMIT's fate is in doubt. */
  lemma CommitsAtMostOnce(cfg: Config, o: Opts, started: nat, env: nat -> Script)
    requires !o.idempotent && forall i :: Honest(env(i))
    ensures var made := Attempts(false, cfg, o, started, env, UNTOUCHED);
            var last := made[|made| - 1];
            var n := Commits(false, cfg, made);
            && n <= 1
            && (OutcomeOf(false, cfg, last).Succeeded? ==> n == 1)
            && (OutcomeOf(false, cfg, last).Thrown? ==> n == 0)
            && (OutcomeOf(false, cfg, last).Failure? && !CommitInDoubt(cfg, last) ==> n == 0)
  {
    OnlyLastCommits(false, cfg, o, started, env, UNTOUCHED);
    LastIsFromEnv(false, cfg, o, started, env, UNTOUCHED);
    var made := Attempts(false, cfg, o, started, env, UNTOUCHED);
    LastAttemptTells(cfg, made[|made| - 1]);
  }

  lemma LastAttemptTells(cfg: Config, s: Script)
    requires Honest(s)
    ensures OutcomeOf(false, cfg, s).Succeeded? ==> Applied(false, cfg, s)
    ensures OutcomeOf(false, cfg, s).Thrown? ==> !Applied(false, cfg, s)
    ensures OutcomeOf(false, cfg, s).Failure? && !CommitInDoubt(cfg, s) ==> !Applied(false, cfg, s)
  {}

  lemma {:induction false} LastIsFromEnv(emulated: bool, cfg: Config, o: Opts, started: nat, env: nat -> Script, b: Budget)
    requires forall i :: Honest(env(i))
    ensures var made := Attempts(emulated, cfg, o, started, env, b); made != [] && Honest(made[|made| - 1])
    decreases Potential(cfg, b)
  {
    var s := env(b.attempt);
    AttemptsUnfold(emulated, cfg, o, started, env, b);
    if Retried(emulated, cfg, o, started, b, s) {
      RetrySpends(emulated, cfg, o, started, b, s);
      LastIsFromEnv(emulated, cfg, o, started, env, Next(cfg, b, TxClass(OutcomeOf(emulated, cfg, s).f)));
    }
  }

  /** The re-runs after a COMMIT in doubt that idempotent still permits. */
  function DoubtfulRerunsLeft(b: Budget): nat {
    (if b.connectionLost == 0 then 1 else 0) + (if b.deadline == 0 then 1 else 0)
  }

  /** With idempotent a COMMIT in doubt is repeated, once per kind of doubt: at most three commits. */
  lemma {:induction false} CommitsWhenIdempotent(cfg: Config, o: Opts, started: nat, env: nat -> Script, b: Budget)
    requires forall i :: Honest(env(i))
    ensures Commits(false, cfg, Attempts(false, cfg, o, started, env, b)) <= 1 + DoubtfulRerunsLeft(b)
    decreases Potential(cfg, b)
  {
    var s := env(b.attempt);
    AttemptsUnfold(false, cfg, o, started, env, b);
    if Retried(false, cfg, o, started, b, s) {
      RetrySpends(false, cfg, o, started, b, s);
      CommitsWhenIdempotent(cfg, o, started, env, Next(cfg, b, TxClass(OutcomeOf(false, cfg, s).f)));
      CommitsCons(false, cfg, s, Rest(false, cfg, o, started, env, b));
      if Applied(false, cfg, s) { RetriedInDoubt(cfg, o, started, b, s); }
    } else {
      CommitsCons(false, cfg, s, []);
    }
  }

  lemma RetriedInDoubt(cfg: Config, o: Opts, started: nat, b: Budget, s: Script)
    requires Honest(s) && Retried(false, cfg, o, started, b, s) && Applied(false, cfg, s)
    ensures DoubtfulRerunsLeft(Next(cfg, b, TxClass(OutcomeOf(false, cfg, s).f))) < DoubtfulRerunsLeft(b)
  {}

  lemma {:induction false} AttemptsWithinPotential(emulated: bool, cfg: Config, o: Opts, started: nat, env: nat -> Script, b: Budget)
    ensures 1 <= |Attempts(emulated, cfg, o, started, env, b)| <= 1 + Potential(cfg, b)
    decreases Potential(cfg, b)
  {
    var s := env(b.attempt);
    if Retried(emulated, cfg, o, started, b, s) {
      var out := OutcomeOf(emulated, cfg, s);
      GrantSpends(cfg, o, b, TxClass(out.f), ScopeOf(out), started, s.now);
      AttemptsWithinPotential(emulated, cfg, o, started, env, Next(cfg, b, TxClass(out.f)));
    }
  }

  // ---------- the backoff of a call ----------

  /** The attempt failed and a delay before another one was granted. */
  predicate Delayed(emulated: bool, cfg: Config, o: Opts, started: nat, b: Budget, s: Script) {
    var out := OutcomeOf(emulated, cfg, s);
    out.Failure? && Delay(cfg, o, b, TxClass(out.f), ScopeOf(out), started, s.now).Some?
  }

  function FailedAs(emulated: bool, cfg: Config, s: Script): Failed
    requires OutcomeOf(emulated, cfg, s).Failure?
  {
    var out := OutcomeOf(emulated, cfg, s);
    Failed(TxClass(out.f), ScopeOf(out), s.now)
  }

  /** The failures of a run_tx that were granted a delay; the sleep of the last one may
      have been cut short, which ends the call. */
  function Waits(emulated: bool, cfg: Config, o: Opts, started: nat, env: nat -> Script, b: Budget): seq<Failed>
    decreases Potential(cfg, b)
  {
    var s := env(b.attempt);
    if Retried(emulated, cfg, o, started, b, s) then
      RetrySpends(emulated, cfg, o, started, b, s);
      [FailedAs(emulated, cfg, s)] + Waits(emulated, cfg, o, started, env, Next(cfg, b, FailedAs(emulated, cfg, s).cls))
    else if Delayed(emulated, cfg, o, started, b, s) then [FailedAs(emulated, cfg, s)]
    else []
  }

  lemma {:induction false} WaitsAreGranted(emulated: bool, cfg: Config, o: Opts, started: nat, env: nat -> Script, b: Budget)
    ensures Granted(cfg, o, started, b, Waits(emulated, cfg, o, started, env, b))
    decreases Potential(cfg, b)
  {
    var s := env(b.attempt);
    var waits := Waits(emulated, cfg, o, started, env, b);
    if Retried(emulated, cfg, o, started, b, s) {
      RetrySpends(emulated, cfg, o, started, b, s);
      var next := Next(cfg, b, FailedAs(emulated, cfg, s).cls);
      WaitsAreGranted(emulated, cfg, o, started, env, next);
      assert waits[1..] == Waits(emulated, cfg, o, started, env, next);
    } else if Delayed(emulated, cfg, o, started, b, s) {
      assert waits[1..] == [];
    }
  }

  /** One wait per attempt but the last, and one for the last when its sleep was cut short. */
  predicate AreWaitsOf(emulated: bool, cfg: Config, waits: seq<Failed>, made: seq<Script>) {
    && |made| - 1 <= |waits| <= |made|
    && forall i | 0 <= i < |waits| :: IsWaitOf(emulated, cfg, waits[i], made[i])
  }

  predicate IsWaitOf(emulated: bool, cfg: Config, f: Failed, s: Script) {
    OutcomeOf(emulated, cfg, s).Failure? && f == FailedAs(emulated, cfg, s)
  }

  lemma WaitsCons(emulated: bool, cfg: Config, f: Failed, s: Script, waits: seq<Failed>, made: seq<Script>)
    requires IsWaitOf(emulated, cfg, f, s) && AreWaitsOf(emulated, cfg, waits, made)
    ensures AreWaitsOf(emulated, cfg, [f] + waits, [s] + made)
  {
    forall i | 0 <= i < |waits| + 1
      ensures IsWaitOf(emulated, cfg, ([f] + waits)[i], ([s] + made)[i])
    {
      if i > 0 { assert IsWaitOf(emulated, cfg, waits[i - 1], made[i - 1]); }
    }
  }

  lemma {:induction false} WaitsOfAttempts(emulated: bool, cfg: Config, o: Opts, started: nat, env: nat -> Script, b: Budget)
    ensures AreWaitsOf(emulated, cfg, Waits(emulated, cfg, o, started, env, b), Attempts(emulated, cfg, o, started, env, b))
    decreases Potential(cfg, b)
  {
    var s := env(b.attempt);
    AttemptsUnfold(emulated, cfg, o, started, env, b);
    if Retried(emulated, cfg, o, started, b, s) {
      RetrySpends(emulated, cfg, o, started, b, s);
      var f := FailedAs(emulated, cfg, s);
      var next := Next(cfg, b, f.cls);
      WaitsOfAttempts(emulated, cfg, o, started, env, next);
      WaitsCons(emulated, cfg, f, s, Waits(emulated, cfg, o, started, env, next), Rest(emulated, cfg, o, started, env, b));
    }
  }

  /** All milliseconds a run_tx is told to sleep between its attempts. */
  function CallBackoff(emulated: bool, cfg: Config, o: Opts, started: nat, env: nat -> Script): nat {
    WaitsAreGranted(emulated, cfg, o, started, env, UNTOUCHED);
    TotalBackoff(cfg, o, started, UNTOUCHED, Waits(emulated, cfg, o, started, env, UNTOUCHED))
  }

  /** The clock does not run backwards, fits its 64 bits, and a sleep lasts its delay. */
  predicate CallClockRuns(emulated: bool, cfg: Config, o: Opts, started: nat, env: nat -> Script) {
    WaitsAreGranted(emulated, cfg, o, started, env, UNTOUCHED);
    var waits := Waits(emulated, cfg, o, started, env, UNTOUCHED);
    (waits != [] ==> started <= waits[0].now) && ClockRuns(cfg, o, started, UNTOUCHED, waits)
  }

  /** Whatever a run_tx meets, all its backoff together stays within the closed form. */
  lemma CallBackoffBounded(emulated: bool, cfg: Config, o: Opts, started: nat, env: nat -> Script)
    requires ValidConfig(cfg)
    ensures 2 * CallBackoff(emulated, cfg, o, started, env) + cfg.baseMs + 100
         <= cfg.baseMs * Power(3, cfg.attempts - 1) + 100 * Power(2, cfg.attempts - 1)
  {
    WaitsAreGranted(emulated, cfg, o, started, env, UNTOUCHED);
    BackoffBounded(cfg, o, started, Waits(emulated, cfg, o, started, env, UNTOUCHED));
  }

  /** ... and below its wall-clock budget, when it has one. */
  lemma CallBackoffWithinBudget(emulated: bool, cfg: Config, o: Opts, started: nat, env: nat -> Script)
    requires 0 < o.budgetMs < U64 && CallClockRuns(emulated, cfg, o, started, env)
    ensures CallBackoff(emulated, cfg, o, started, env) < o.budgetMs
  {
    var waits := Waits(emulated, cfg, o, started, env, UNTOUCHED);
    WaitsAreGranted(emulated, cfg, o, started, env, UNTOUCHED);
    if waits != [] { BackoffWithinBudget(cfg, o, started, waits); }
  }

  /** The backoff inside one attempt: between the tries of BEGIN, and between those of the
      body's statements. */
  function AttemptSleep(emulated: bool, cfg: Config, s: Script): nat {
    OpenSleep(emulated, cfg, s.open, 0)
    + if OpenError(emulated, cfg.attempts, s.open, 0).None? then BodySleep(emulated, cfg, s.calls, |s.calls|) else 0
  }

  /** The delay before the next attempt, 0 if there is none. */
  function DelayAfter(emulated: bool, cfg: Config, o: Opts, started: nat, b: Budget, s: Script): nat {
    if !Delayed(emulated, cfg, o, started, b, s) then 0 else DelayOf(cfg, o, started, b, FailedAs(emulated, cfg, s)).value
  }

  /** All backoff of a run_tx, in milliseconds, from the attempt on at which its counters are b. */
  function SleepFrom(emulated: bool, cfg: Config, o: Opts, started: nat, env: nat -> Script, b: Budget): nat
    decreases Potential(cfg, b)
  {
    var s := env(b.attempt);
    AttemptSleep(emulated, cfg, s) + DelayAfter(emulated, cfg, o, started, b, s)
    + if Retried(emulated, cfg, o, started, b, s) then
        RetrySpends(emulated, cfg, o, started, b, s);
        SleepFrom(emulated, cfg, o, started, env, Next(cfg, b, FailedAs(emulated, cfg, s).cls))
      else 0
  }

  // ---------- the code ----------

  /** The body's calls on the open transaction. */
  method RunBody(tx: PgTransaction, cfg: Config, calls: BodyCalls) returns (ghost asked: nat)
    requires ValidConfig(cfg) && tx.Valid() && tx.active && tx.conn.Some? && tx.lastCommitError.None?
    modifies tx
    ensures tx.Valid() && !tx.committed && tx.lastCommitError.None?
    ensures var l := LiveTo(tx.emulated, cfg, calls, |calls|); tx.active == l.active && tx.conn.Some? == l.held
    ensures asked == BodySleep(tx.emulated, cfg, calls, |calls|)
  {
    var subs: seq<PgSubtransaction> := [];
    asked := 0;
    for i := 0 to |calls|
      invariant tx.Valid() && AllSavepointsOf(tx, subs) && forall k | 0 <= k < |subs| :: fresh(subs[k])
      invariant !tx.committed && tx.lastCommitError.None?
      invariant Shows(LiveTo(tx.emulated, cfg, calls, i), tx, subs) && asked == BodySleep(tx.emulated, cfg, calls, i)
    {
      ghost var more;
      subs, more := Perform(tx, subs, cfg, calls[i], LiveTo(tx.emulated, cfg, calls, i));
      asked := asked + more;
    }
  }

  /** commit(), and what run_tx makes of it. */
  method CommitAttempt(tx: PgTransaction, s: Script) returns (out: Outcome)
    requires tx.Valid() && !tx.committed && tx.lastCommitError.None?
    modifies tx
    ensures tx.Valid()
    ensures out == if !old(tx.active) then Outcome.Failure(NOT_ACTIVE, true) else
                   var c := CommitError(tx.emulated, old(tx.conn).Some?, s.commit);
                   if c.None? then Succeeded else Outcome.Failure(c.value, true)
    ensures old(tx.active) && old(tx.conn).Some? && s.commit.connected && !tx.emulated && !s.commit.inError ==>
              tx.conn.None? && tx.moves == old(tx.moves) + Leaves(old(tx.conn), IsFatalReply(s.commit.reply))
  {
    var committed := tx.Commit(s.commit);
    if committed || tx.committed {
      out := Succeeded;
    } else if tx.lastCommitError.Some? {
      out := Outcome.Failure(tx.lastCommitError.value, true);
    } else {
      out := Outcome.Failure(NOT_ACTIVE, true);
    }
  }

  /** One attempt on a transaction object of its own; afterwards every connection
      it took has left it. */
  method RunOnce(emulated: bool, cfg: Config, s: Script) returns (out: Outcome, ghost moves: seq<Move>, ghost asked: nat)
    requires ValidConfig(cfg)
    ensures out == OutcomeOf(emulated, cfg, s) && asked == AttemptSleep(emulated, cfg, s)
    ensures Paired(moves, None)
    // a sound connection goes back to the pool, after a rollback as after a COMMIT
    ensures OpenError(emulated, cfg.attempts, s.open, 0).None? && !s.body.Returns? && Left(emulated, cfg, s).held ==>
              moves != [] && moves[|moves| - 1].GaveBack? == (emulated || !IsFatalReply(s.finish))
    ensures AtCommit(emulated, cfg, s) && !emulated && !s.commit.inError ==>
              moves != [] && moves[|moves| - 1].GaveBack? == !IsFatalReply(s.commit.reply)
  {
    var tx := new PgTransaction(emulated);
    var err;
    err, asked := tx.Open(cfg, s.open);
    if err.Some? {
      out := Outcome.Failure(err.value, false);
    } else {
      ghost var more := RunBody(tx, cfg, s.calls);
      asked := asked + more;
      match s.body {
        case Throws => out := Thrown;
        case ReturnsError(f) => out := Outcome.Failure(f, false);
        case Returns => out := CommitAttempt(tx, s);
      }
    }
    tx.Finish(true, s.finish);
    tx.Destroy();
    moves := tx.moves;
  }

  /** Charges a failure to the budget and decides about another attempt. */
  method TryAgain(emulated: bool, cfg: Config, budget: RetryBudget, s: Script, out: Outcome) returns (again: bool)
    requires ValidConfig(cfg) && out == OutcomeOf(emulated, cfg, s)
    modifies budget
    ensures again == Retried(emulated, cfg, budget.opts, budget.started, old(budget.View()), s)
    ensures again ==> budget.View() == Next(cfg, old(budget.View()), FailedAs(emulated, cfg, s).cls)
  {
    if !out.Failure? {
      return false;
    }
    var delay := budget.NextRetryDelay(cfg, TxClass(out.f), ScopeOf(out), s.now);
    again := delay.Some? && (delay.value > 0 ==> s.slept);
    if again {
      budget.attempt := budget.attempt + 1;
    }
  }

  /** run_tx makes the attempts of Attempts and returns the outcome of the last. */
  method Run(emulated: bool, cfg: Config, o: Opts, started: nat, env: nat -> Script)
    returns (out: Outcome, made: seq<Script>, ghost asked: nat)
    requires ValidConfig(cfg)
    ensures made == Attempts(emulated, cfg, o, started, env, UNTOUCHED)
    ensures 1 <= |made| <= 2 * cfg.attempts + 1 && out == OutcomeOf(emulated, cfg, made[|made| - 1])
    ensures asked == SleepFrom(emulated, cfg, o, started, env, UNTOUCHED)
  {
    made, asked := [], 0;
    AttemptsWithinPotential(emulated, cfg, o, started, env, UNTOUCHED);
    var budget := new RetryBudget(o, started);
    ghost var b := UNTOUCHED;
    assert [] + Attempts(emulated, cfg, o, started, env, b) == Attempts(emulated, cfg, o, started, env, b);
    while true
      invariant fresh(budget) && budget.opts == o && budget.started == started && budget.View() == b
      invariant SoFar(emulated, cfg, o, started, env, b, made, asked)
      decreases Potential(cfg, b)
    {
      var s := env(budget.attempt);
      OneMore(emulated, cfg, o, started, env, b, made, asked);
      made := made + [s];
      ghost var moves, more;
      out, moves, more := RunOnce(emulated, cfg, s);
      asked := asked + more + DelayAfter(emulated, cfg, o, started, b, s);
      var again := TryAgain(emulated, cfg, budget, s, out);
      if !again {
        return;
      }
      RetrySpends(emulated, cfg, o, started, b, s);
      b := Next(cfg, b, FailedAs(emulated, cfg, s).cls);
    }
  }

  /** The attempts made and those the budget still leads to are the whole call, and so is the backoff. */
  ghost predicate SoFar(emulated: bool, cfg: Config, o: Opts, started: nat, env: nat -> Script, b: Budget,
                        made: seq<Script>, asked: nat)
  {
    && made + Attempts(emulated, cfg, o, started, env, b) == Attempts(emulated, cfg, o, started, env, UNTOUCHED)
    && asked + SleepFrom(emulated, cfg, o, started, env, b) == SleepFrom(emulated, cfg, o, started, env, UNTOUCHED)
  }

  lemma OneMore(emulated: bool, cfg: Config, o: Opts, started: nat, env: nat -> Script, b: Budget, made: seq<Script>, asked: nat)
    requires SoFar(emulated, cfg, o, started, env, b, made, asked)
    ensures var s := env(b.attempt);
            var more := asked + AttemptSleep(emulated, cfg, s) + DelayAfter(emulated, cfg, o, started, b, s);
            if Retried(emulated, cfg, o, started, b, s)
            then SoFar(emulated, cfg, o, started, env, Next(cfg, b, FailedAs(emulated, cfg, s).cls), made + [s], more)
            else && made + [s] == Attempts(emulated, cfg, o, started, env, UNTOUCHED)
                 && more == SleepFrom(emulated, cfg, o, started, env, UNTOUCHED)
  {
    Unfold(emulated, cfg, o, started, env, b, made);
    assert made + [env(b.attempt)] + [] == made + [env(b.attempt)];
  }

  lemma Unfold(emulated: bool, cfg: Config, o: Opts, started: nat, env: nat -> Script, b: Budget, made: seq<Script>)
    ensures var s := env(b.attempt);
            made + Attempts(emulated, cfg, o, started, env, b)
            == made + [s] + if Retried(emulated, cfg, o, started, b, s) then Rest(emulated, cfg, o, started, env, b) else []
  {
    var s := env(b.attempt);
    var rest := if Retried(emulated, cfg, o, started, b, s) then Rest(emulated, cfg, o, started, env, b) else [];
    AttemptsUnfold(emulated, cfg, o, started, env, b);
    Assoc(made, [s], rest);
  }
}
