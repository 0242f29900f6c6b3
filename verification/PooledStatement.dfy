/** One pooled statement: acquire, run, give back, and run again while the
    failure's class and the caller's options allow it. */
module PooledStatement {
  import opened Wrappers
  import opened RetryPolicy
  import opened RetryBounds
  import opened Traffic

  /** What the environment does with one attempt. `effect` is the server's side:
      the statement took effect. `now` is the clock at the failure, and `slept`
      says that a backoff sleep was not cut short by a cancellation. `connected`
      says that the connection is still up after the statement. */
  datatype Attempt =
    | NoConnection(f: Failure)
    | Ran(conn: Conn, connected: bool, ok: bool, f: Failure, ioTimedOut: bool, effect: bool, now: nat, slept: bool)

  function ClassOf(a: Attempt): RetryClass
    requires a.Ran?
  {
    if a.ok then NoRetry else Classify(a.f, a.ioTimedOut)
  }

  /** give_back closes the connection instead of releasing it. */
  predicate Condemns(a: Attempt)
    requires a.Ran?
  {
    || ClassOf(a) in {NotStarted, ConnectionLost, Deadline}
    || (!a.ok && IsFatal(a.f)) || !a.connected
  }

  /** The connection of an attempt: taken, and given back or closed. */
  function TrafficOf(a: Attempt): seq<Move> {
    if a.NoConnection? then [] else [Took(a.conn), if Condemns(a) then Closed(a.conn) else GaveBack(a.conn)]
  }

  function TrafficTo(made: seq<Attempt>, n: nat): seq<Move>
    requires n <= |made|
  {
    if n == 0 then [] else TrafficTo(made, n - 1) + TrafficOf(made[n - 1])
  }

  lemma PairedRound(moves: seq<Move>, a: Attempt)
    requires Paired(moves, None)
    ensures Paired(moves + TrafficOf(a), None)
  {
    if a.Ran? {
      var t := TrafficOf(a);
      assert (moves + t)[..|moves| + 1] == moves + [t[0]];
      assert (moves + [t[0]])[..|moves|] == moves;
      assert Paired(moves + [t[0]], Some(a.conn));
    } else {
      assert moves + [] == moves;
    }
  }

  lemma {:induction false} TrafficSame(a: seq<Attempt>, b: seq<Attempt>, n: nat)
    requires n <= |a| && n <= |b| && forall i | 0 <= i < n :: a[i] == b[i]
    ensures TrafficTo(a, n) == TrafficTo(b, n)
    decreases n
  {
    if n > 0 { TrafficSame(a, b, n - 1); }
  }

  lemma TrafficSnoc(made: seq<Attempt>, a: Attempt)
    ensures TrafficTo(made + [a], |made| + 1) == TrafficTo(made, |made|) + TrafficOf(a)
  {
    TrafficSame(made, made + [a], |made|);
    assert (made + [a])[|made|] == a;
  }

  /** What the two classes mean: a statement that never started, or that the
      server rolled back, had no effect. */
  predicate Honest(a: Attempt) {
    a.Ran? && ClassOf(a) in {NotStarted, RolledBack} ==> !a.effect
  }

  /** The attempt is followed by another one. */
  predicate Retried(cfg: Config, o: Opts, started: nat, b: Budget, a: Attempt) {
    && a.Ran? && !a.ok
    && var d := Delay(cfg, o, b, ClassOf(a), Statement, started, a.now);
       d.Some? && (d.value > 0 ==> a.slept)
  }

  /** The attempts one call makes, against an environment that answers attempt i with env(i). */
  function Attempts(cfg: Config, o: Opts, started: nat, env: nat -> Attempt, b: Budget): seq<Attempt>
    decreases Potential(cfg, b)
  {
    var a := env(b.attempt);
    if Retried(cfg, o, started, b, a) then
      GrantSpends(cfg, o, b, ClassOf(a), Statement, started, a.now);
      [a] + Attempts(cfg, o, started, env, Next(cfg, b, ClassOf(a)))
    else [a]
  }

  /** The attempts after a repeated one. */
  function Rest(cfg: Config, o: Opts, started: nat, env: nat -> Attempt, b: Budget): seq<Attempt>
    requires Retried(cfg, o, started, b, env(b.attempt))
  {
    Attempts(cfg, o, started, env, Next(cfg, b, ClassOf(env(b.attempt))))
  }

  lemma RetrySpends(cfg: Config, o: Opts, started: nat, b: Budget, a: Attempt)
    requires Retried(cfg, o, started, b, a)
    ensures Potential(cfg, Next(cfg, b, ClassOf(a))) < Potential(cfg, b)
  {
    GrantSpends(cfg, o, b, ClassOf(a), Statement, started, a.now);
  }

  function Effects(attempts: seq<Attempt>): nat {
    if attempts == [] then 0
    else (if attempts[0].Ran? && attempts[0].effect then 1 else 0) + Effects(attempts[1..])
  }

  /** The re-runs of possibly effective attempts the options and counters leave. */
  function RiskyRerunsLeft(o: Opts, b: Budget): nat {
    (if (o.idempotent || o.retryOnConnectionLoss) && b.connectionLost == 0 then 1 else 0)
    + (if o.idempotent && b.deadline == 0 then 1 else 0)
  }

  lemma {:induction false} EffectsBounded(cfg: Config, o: Opts, started: nat, env: nat -> Attempt, b: Budget)
    requires forall i :: Honest(env(i))
    ensures Effects(Attempts(cfg, o, started, env, b)) <= 1 + RiskyRerunsLeft(o, b)
    decreases Potential(cfg, b)
  {
    var a := env(b.attempt);
    if Retried(cfg, o, started, b, a) {
      GrantSpends(cfg, o, b, ClassOf(a), Statement, started, a.now);
      var next := Next(cfg, b, ClassOf(a));
      EffectsBounded(cfg, o, started, env, next);
      var rest := Attempts(cfg, o, started, env, next);
      assert ([a] + rest)[1..] == rest;
      assert Honest(a);
    } else {
      assert [a][1..] == [];
    }
  }

  /** With default options at most one attempt takes effect, over every outcome
      sequence; opting into connection-loss retries allows a second, idempotent a third. */
  lemma AtMostOnce(cfg: Config, o: Opts, started: nat, env: nat -> Attempt)
    requires forall i :: Honest(env(i))
    ensures var n := Effects(Attempts(cfg, o, started, env, UNTOUCHED));
            && (!o.idempotent && !o.retryOnConnectionLoss ==> n <= 1)
            && (!o.idempotent ==> n <= 2)
            && n <= 3
  {
    EffectsBounded(cfg, o, started, env, UNTOUCHED);
  }

  /** A write lost twice, once with the connection and once at the deadline, and
      applied each time: with idempotent set the three effects do occur. */
  lemma ThreeEffectsPossible(cfg: Config)
    ensures var o := Opts(false, true, 0);
            exists env: nat -> Attempt ::
              (forall i :: Honest(env(i))) && Effects(Attempts(cfg, o, 0, env, UNTOUCHED)) == 3
  {
    var o := Opts(false, true, 0);
    var f := Failure(SocketReadFailed, "", "", "");
    var lost := Ran(0, false, false, f, false, true, 0, true);
    var late := Ran(1, false, false, f, true, true, 0, true);
    var done := Ran(2, true, true, f, false, true, 0, true);
    var env: nat -> Attempt := i => if i == 0 then lost else if i == 1 then late else done;
    var b1 := Next(cfg, UNTOUCHED, ConnectionLost);
    var b2 := Next(cfg, b1, Deadline);
    assert !("io deadline exceeded" <= "");
    assert ClassOf(lost) == ConnectionLost && ClassOf(late) == Deadline;
    assert Attempts(cfg, o, 0, env, b2) == [done];
    assert Attempts(cfg, o, 0, env, b1) == [late] + [done];
    assert Attempts(cfg, o, 0, env, UNTOUCHED) == [lost] + ([late] + [done]);
    assert ([lost] + ([late] + [done]))[1..] == [late] + [done] && ([late] + [done])[1..] == [done] && [done][1..] == [];
    assert Effects([done]) == 1 && Effects([late] + [done]) == 2;
    assert forall i :: Honest(env(i));
  }

  lemma {:induction false} AttemptsWithinPotential(cfg: Config, o: Opts, started: nat, env: nat -> Attempt, b: Budget)
    ensures 1 <= |Attempts(cfg, o, started, env, b)| <= 1 + Potential(cfg, b)
    decreases Potential(cfg, b)
  {
    var a := env(b.attempt);
    if Retried(cfg, o, started, b, a) {
      GrantSpends(cfg, o, b, ClassOf(a), Statement, started, a.now);
      AttemptsWithinPotential(cfg, o, started, env, Next(cfg, b, ClassOf(a)));
    }
  }

  // ---------- the backoff of a call ----------

  /** The attempt failed and a delay before another one was granted. */
  predicate Delayed(cfg: Config, o: Opts, started: nat, b: Budget, a: Attempt) {
    a.Ran? && !a.ok && Delay(cfg, o, b, ClassOf(a), Statement, started, a.now).Some?
  }

  function FailedAs(a: Attempt): Failed
    requires a.Ran?
  {
    Failed(ClassOf(a), Statement, a.now)
  }

  /** The failures of a call that were granted a delay; the sleep of the last one may
      have been cut short, which ends the call. */
  function Waits(cfg: Config, o: Opts, started: nat, env: nat -> Attempt, b: Budget): seq<Failed>
    decreases Potential(cfg, b)
  {
    var a := env(b.attempt);
    if Retried(cfg, o, started, b, a) then
      RetrySpends(cfg, o, started, b, a);
      [FailedAs(a)] + Waits(cfg, o, started, env, Next(cfg, b, ClassOf(a)))
    else if Delayed(cfg, o, started, b, a) then [FailedAs(a)]
    else []
  }

  /** They are the failures of all attempts but the last, and of the last one too when
      its sleep was cut short. */
  lemma {:induction false} WaitsOfAttempts(cfg: Config, o: Opts, started: nat, env: nat -> Attempt, b: Budget)
    ensures var made := Attempts(cfg, o, started, env, b);
            var waits := Waits(cfg, o, started, env, b);
            && |made| - 1 <= |waits| <= |made|
            && forall i | 0 <= i < |waits| :: made[i].Ran? && waits[i] == FailedAs(made[i])
    decreases Potential(cfg, b)
  {
    var a := env(b.attempt);
    if Retried(cfg, o, started, b, a) {
      RetrySpends(cfg, o, started, b, a);
      var next := Next(cfg, b, ClassOf(a));
      WaitsOfAttempts(cfg, o, started, env, next);
      var made, waits := Attempts(cfg, o, started, env, b), Waits(cfg, o, started, env, b);
      assert made == [a] + Attempts(cfg, o, started, env, next);
      forall i | 0 < i < |waits| ensures made[i].Ran? && waits[i] == FailedAs(made[i]) {
        assert made[i] == Attempts(cfg, o, started, env, next)[i - 1] && waits[i] == Waits(cfg, o, started, env, next)[i - 1];
      }
    }
  }

  lemma {:induction false} WaitsAreGranted(cfg: Config, o: Opts, started: nat, env: nat -> Attempt, b: Budget)
    ensures Granted(cfg, o, started, b, Waits(cfg, o, started, env, b))
    decreases Potential(cfg, b)
  {
    var a := env(b.attempt);
    var waits := Waits(cfg, o, started, env, b);
    if Retried(cfg, o, started, b, a) {
      RetrySpends(cfg, o, started, b, a);
      WaitsAreGranted(cfg, o, started, env, Next(cfg, b, ClassOf(a)));
      assert waits[1..] == Waits(cfg, o, started, env, Next(cfg, b, ClassOf(a)));
    } else if Delayed(cfg, o, started, b, a) {
      assert waits[1..] == [];
    }
  }

  /** All milliseconds a call is told to sleep. */
  function CallBackoff(cfg: Config, o: Opts, started: nat, env: nat -> Attempt): nat {
    WaitsAreGranted(cfg, o, started, env, UNTOUCHED);
    TotalBackoff(cfg, o, started, UNTOUCHED, Waits(cfg, o, started, env, UNTOUCHED))
  }

  /** The clock does not run backwards, fits its 64 bits, and a sleep lasts its delay. */
  predicate CallClockRuns(cfg: Config, o: Opts, started: nat, env: nat -> Attempt) {
    WaitsAreGranted(cfg, o, started, env, UNTOUCHED);
    var waits := Waits(cfg, o, started, env, UNTOUCHED);
    (waits != [] ==> started <= waits[0].now) && ClockRuns(cfg, o, started, UNTOUCHED, waits)
  }

  /** Whatever a call meets, all its backoff together stays within the closed form. */
  lemma CallBackoffBounded(cfg: Config, o: Opts, started: nat, env: nat -> Attempt)
    requires ValidConfig(cfg)
    ensures 2 * CallBackoff(cfg, o, started, env) + cfg.baseMs + 100
         <= cfg.baseMs * Power(3, cfg.attempts - 1) + 100 * Power(2, cfg.attempts - 1)
  {
    WaitsAreGranted(cfg, o, started, env, UNTOUCHED);
    BackoffBounded(cfg, o, started, Waits(cfg, o, started, env, UNTOUCHED));
  }

  /** ... and below its wall-clock budget, when it has one. */
  lemma CallBackoffWithinBudget(cfg: Config, o: Opts, started: nat, env: nat -> Attempt)
    requires 0 < o.budgetMs < U64 && CallClockRuns(cfg, o, started, env)
    ensures CallBackoff(cfg, o, started, env) < o.budgetMs
  {
    var waits := Waits(cfg, o, started, env, UNTOUCHED);
    WaitsAreGranted(cfg, o, started, env, UNTOUCHED);
    if waits != [] { BackoffWithinBudget(cfg, o, started, waits); }
  }

  // ---------- attempts that are made again ----------

  /** A failed statement is run again exactly when it never started, or when it may be
      repeated by the options, and the counter of its class lasts. */
  lemma RetriedIff(cfg: Config, o: Opts, started: nat, b: Budget, a: Attempt)
    requires o.budgetMs == 0 && a.Ran? && !a.ok && a.slept
    ensures var cls := ClassOf(a);
            Retried(cfg, o, started, b, a)
            <==> CounterLeft(cfg, b, cls)
                 && (|| cls == NotStarted || (cls == ConnectionLost && (o.retryOnConnectionLoss || o.idempotent))
                     || (cls in {Deadline, RolledBack} && o.idempotent))
  {
    AllowedIff(o, ClassOf(a));
    GrantedIff(cfg, o, b, ClassOf(a), Statement, started, a.now);
  }

  /** A canceled sleep ends the call. */
  lemma CutShortIsLast(cfg: Config, o: Opts, started: nat, env: nat -> Attempt, b: Budget)
    requires var a := env(b.attempt);
             a.Ran? && !a.ok && !a.slept && Backoff(cfg, b, ClassOf(a)).Some? && Backoff(cfg, b, ClassOf(a)).value > 0
    ensures Attempts(cfg, o, started, env, b) == [env(b.attempt)]
  {
  }

  /** The connection broke under the statement. */
  predicate BrokeUnder(a: Attempt) {
    && a.Ran? && !a.ok && !a.ioTimedOut && a.f.code == SocketReadFailed && a.f.sqlstate == ""
    && !("io deadline exceeded" <= a.f.error)
  }

  /** A statement that loses its connection each time is run twice if the caller asked for
      that, and once otherwise. */
  lemma LostIsRepeatedOnce(cfg: Config, o: Opts, started: nat, env: nat -> Attempt)
    requires o.budgetMs == 0 && forall i: nat :: BrokeUnder(env(i)) && env(i).slept
    ensures |Attempts(cfg, o, started, env, UNTOUCHED)| == if o.retryOnConnectionLoss || o.idempotent then 2 else 1
  {
    var again := Next(cfg, UNTOUCHED, ConnectionLost);
    assert BrokeUnder(env(0)) && BrokeUnder(env(1));
    ClassMeans(env(0).f, false);
    ClassMeans(env(1).f, false);
    RetriedIff(cfg, o, started, UNTOUCHED, env(0));
    RetriedIff(cfg, o, started, again, env(1));
    assert Attempts(cfg, o, started, env, again) == [env(1)];
  }

  // ---------- how a connection leaves ----------

  predicate SpeaksOfLoss(error: string) {
    || Contains(error, "another command is already in progress")
    || Contains(error, "could not receive data from server")
    || Contains(error, "server closed the connection unexpectedly")
  }

  /** The connection is of no use any more: it is down, or the failure is one of the
      connection, of a passed deadline, or of a session that ended or never began. */
  predicate Spent(a: Attempt)
    requires a.Ran?
  {
    || !a.connected
    || (!a.ok && (NoTransport(a.f.code) || SpeaksOfLoss(a.f.error)))
    || (!a.ok && a.f.code != OK && (a.ioTimedOut || NeverStarted(a.f.sqlstate) || SessionOver(a.f.sqlstate)))
    || (!a.ok && a.f.code == ServerError && a.f.sqlstate == "" && (IsLostMessage(a.f.error) || IsLostMessage(a.f.message)))
  }

  /** Up after a success, or after an error the server merely reported. */
  predicate StillGood(a: Attempt)
    requires a.Ran?
  {
    && a.connected
    && (|| a.ok
        || (&& !a.ioTimedOut && a.f.code == ServerError && |a.f.sqlstate| == 5 && a.f.sqlstate[..2] != "08"
            && a.f.sqlstate !in {"28P01", "53300", "57P03", "57P01", "57P02", "25P03"} && !SpeaksOfLoss(a.f.error)))
  }

  lemma FatalMeans(f: Failure)
    ensures IsFatal(f) <==> NoTransport(f.code) || SpeaksOfLoss(f.error)
  {}

  lemma StatesApart(s: string)
    ensures SessionOver(s) || NeverStarted(s) ==> !Undone(s) && s != ""
  {
    if SessionOver(s) && s[..2] == "08" { assert s[0] == s[..2][0] == '0'; }
    if Undone(s) { assert s[0] == '4' || s[0] == '5'; }
  }

  /** give_back closes the connection exactly when it is spent. */
  lemma ClosedIffSpent(a: Attempt)
    requires a.Ran?
    ensures Condemns(a) <==> Spent(a)
  {
    FatalMeans(a.f);
    StatesApart(a.f.sqlstate);
    if !a.ok && a.f.code != OK { ClassMeans(a.f, a.ioTimedOut); }
  }

  lemma GoodIsNotSpent(a: Attempt)
    requires a.Ran? && StillGood(a)
    ensures !Spent(a)
  {
    if a.f.sqlstate == "08P01" { assert a.f.sqlstate[..2] == "08"; }
  }

  /** Attempt i took its connection and let it go: spent ones closed, good ones back to the pool. */
  predicate LeavesRightly(a: Attempt, i: nat, moves: seq<Move>) {
    a.Ran? ==> && 2 * i + 1 < |moves| && moves[2 * i] == Took(a.conn)
               && moves[2 * i + 1] == if Spent(a) then Closed(a.conn) else GaveBack(a.conn)
  }

  lemma {:induction false} TrafficAt(made: seq<Attempt>, n: nat, i: nat)
    requires i < n <= |made| && forall j | 0 <= j < n - 1 :: made[j].Ran?
    ensures LeavesRightly(made[i], i, TrafficTo(made, n))
    ensures |TrafficTo(made, n)| == if made[n - 1].Ran? then 2 * n else 2 * n - 2
    decreases n
  {
    if n > 1 { TrafficAt(made, n - 1, if i < n - 1 then i else 0); }
    if made[n - 1].Ran? { ClosedIffSpent(made[n - 1]); }
  }

  // ---------- the code ----------

  /** give_back: the statement is over, its connection is given back or closed. */
  method GiveBack(a: Attempt, cls: RetryClass) returns (m: Move)
    requires a.Ran? && cls == ClassOf(a)
    ensures m == if Condemns(a) then Closed(a.conn) else GaveBack(a.conn)
    ensures m == if Spent(a) then Closed(a.conn) else GaveBack(a.conn)
  {
    ClosedIffSpent(a);
    var failed := cls in {NotStarted, ConnectionLost, Deadline} || (!a.ok && IsFatal(a.f));
    if failed || !a.connected {
      return Closed(a.conn);
    }
    return GaveBack(a.conn);
  }

  /** The moves are those of the attempts made, and nothing is held. */
  predicate Accounted(made: seq<Attempt>, moves: seq<Move>) { moves == TrafficTo(made, |made|) && Paired(moves, None) }

  /** The connection traffic of one attempt, and its class. */
  method RunAttempt(a: Attempt, ghost made: seq<Attempt>, moves: seq<Move>) returns (cls: RetryClass, moves': seq<Move>)
    requires Accounted(made, moves)
    ensures Accounted(made + [a], moves')
    ensures cls == if a.Ran? then ClassOf(a) else NoRetry
  {
    TrafficSnoc(made, a);
    PairedRound(moves, a);
    if a.NoConnection? {
      assert moves + [] == moves;
      return NoRetry, moves;
    }
    cls := if a.ok then NoRetry else Classify(a.f, a.ioTimedOut);
    var left := GiveBack(a, cls);
    moves' := moves + [Took(a.conn), left];
  }

  /** Charges the failure to the budget and decides about another attempt. */
  method TryAgain(cfg: Config, budget: RetryBudget, a: Attempt) returns (again: bool)
    requires ValidConfig(cfg) && a.Ran? && !a.ok
    modifies budget
    ensures again == Retried(cfg, budget.opts, budget.started, old(budget.View()), a)
    ensures again ==> budget.View() == Next(cfg, old(budget.View()), ClassOf(a))
  {
    var delay := budget.NextRetryDelay(cfg, Classify(a.f, a.ioTimedOut), Statement, a.now);
    again := delay.Some? && (delay.value > 0 ==> a.slept);
    if again {
      budget.attempt := budget.attempt + 1;
    }
  }

  /** One attempt: its connection, and whether another one follows. */
  method OneAttempt(cfg: Config, budget: RetryBudget, a: Attempt, ghost made: seq<Attempt>, moves: seq<Move>)
    returns (moves': seq<Move>, again: bool)
    requires ValidConfig(cfg) && Accounted(made, moves)
    modifies budget
    ensures Accounted(made + [a], moves')
    ensures again == Retried(cfg, budget.opts, budget.started, old(budget.View()), a)
    ensures again ==> a.Ran? && !a.ok && budget.View() == Next(cfg, old(budget.View()), ClassOf(a))
  {
    var cls;
    cls, moves' := RunAttempt(a, made, moves);
    again := false;
    if a.Ran? && !a.ok {
      again := TryAgain(cfg, budget, a);
    }
  }

  lemma AttemptsBounded(cfg: Config, o: Opts, started: nat, env: nat -> Attempt)
    requires ValidConfig(cfg)
    ensures 1 <= |Attempts(cfg, o, started, env, UNTOUCHED)| <= 2 * cfg.attempts + 1
  {
    AttemptsWithinPotential(cfg, o, started, env, UNTOUCHED);
  }

  /** PgPool::run. The attempts made are those of Attempts, the caller gets the
      outcome of the last one, and every connection taken has left once. */
  method Run(cfg: Config, o: Opts, started: nat, env: nat -> Attempt)
    returns (result: Attempt, made: seq<Attempt>, moves: seq<Move>)
    requires ValidConfig(cfg)
    ensures made == Attempts(cfg, o, started, env, UNTOUCHED)
    ensures 1 <= |made| <= 2 * cfg.attempts + 1 && result == made[|made| - 1]
    ensures AllFailed(made[..|made| - 1])
    ensures Accounted(made, moves)
    ensures forall i | 0 <= i < |made| :: LeavesRightly(made[i], i, moves)
  {
    made, moves := [], [];
    AttemptsBounded(cfg, o, started, env);
    var budget := new RetryBudget(o, started);
    ghost var b := UNTOUCHED;
    assert [] + Attempts(cfg, o, started, env, b) == Attempts(cfg, o, started, env, b);
    while true
      invariant fresh(budget) && budget.opts == o && budget.started == started && budget.View() == b
      invariant SoFar(cfg, o, started, env, b, made) && Accounted(made, moves)
      decreases Potential(cfg, b)
    {
      result := env(budget.attempt);
      OneMore(cfg, o, started, env, b, made);
      var again;
      moves, again := OneAttempt(cfg, budget, result, made, moves);
      made := made + [result];
      if !again {
        AllLeaveRightly(made, moves);
        return;
      }
      RetrySpends(cfg, o, started, b, result);
      b := Next(cfg, b, ClassOf(result));
    }
  }

  lemma AllLeaveRightly(made: seq<Attempt>, moves: seq<Move>)
    requires made != [] && AllFailed(made[..|made| - 1]) && Accounted(made, moves)
    ensures forall i | 0 <= i < |made| :: LeavesRightly(made[i], i, moves)
  {
    forall i | 0 <= i < |made| ensures LeavesRightly(made[i], i, moves) {
      forall j | 0 <= j < |made| - 1 ensures made[j].Ran? { assert made[..|made| - 1][j] == made[j]; }
      TrafficAt(made, |made|, i);
    }
  }

  /** The attempts made, all failed, and those the budget still leads to are the whole call. */
  ghost predicate SoFar(cfg: Config, o: Opts, started: nat, env: nat -> Attempt, b: Budget, made: seq<Attempt>) {
    AllFailed(made) && made + Attempts(cfg, o, started, env, b) == Attempts(cfg, o, started, env, UNTOUCHED)
  }

  lemma OneMore(cfg: Config, o: Opts, started: nat, env: nat -> Attempt, b: Budget, made: seq<Attempt>)
    requires SoFar(cfg, o, started, env, b, made)
    ensures var a := env(b.attempt);
            if Retried(cfg, o, started, b, a) then SoFar(cfg, o, started, env, Next(cfg, b, ClassOf(a)), made + [a])
            else made + [a] == Attempts(cfg, o, started, env, UNTOUCHED) && AllFailed((made + [a])[..|made|])
  {
    var a := env(b.attempt);
    Unfold(cfg, o, started, env, b, made);
    assert (made + [a])[..|made|] == made;
    assert made + [a] + [] == made + [a];
  }

  predicate AllFailed(made: seq<Attempt>) { forall i | 0 <= i < |made| :: made[i].Ran? && !made[i].ok }

  lemma Unfold(cfg: Config, o: Opts, started: nat, env: nat -> Attempt, b: Budget, made: seq<Attempt>)
    ensures var a := env(b.attempt);
            made + Attempts(cfg, o, started, env, b)
            == made + [a] + if Retried(cfg, o, started, b, a) then Rest(cfg, o, started, env, b) else []
  {
    var a := env(b.attempt);
    if Retried(cfg, o, started, b, a) {
      assert made + ([a] + Rest(cfg, o, started, env, b)) == made + [a] + Rest(cfg, o, started, env, b);
    } else {
      assert made + [a] + [] == made + [a];
    }
  }
}
