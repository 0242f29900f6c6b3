/** What a failure says about the fate of a statement, and whether the call is
    made again: the classification and the retry budget. */
module RetryPolicy {
  import opened Wrappers

  datatype Code =
    | OK | InvalidFuture | ConnectionClosed | SocketReadFailed | ProtocolCorrupt
    | ParserTruncatedField | ParserTruncatedRow | ParserTruncatedHeader
    | ServerError | AuthFailed | AwaitCanceled | TooManyConnections | Unknown

  datatype RetryClass = NoRetry | NotStarted | ConnectionLost | Deadline | RolledBack

  datatype RetryScope = Statement | Transaction | TransactionCommit

  /** A failed operation: code, text, and the server's SQLSTATE and message. */
  datatype Failure = Failure(code: Code, error: string, sqlstate: string, message: string)

  // ---------- classification ----------

  function LowerChar(c: char): char {
    if 'A' <= c <= 'Z' then c - 'A' + 'a' else c
  }

  function Lower(s: string): string {
    seq(|s|, i requires 0 <= i < |s| => LowerChar(s[i]))
  }

  predicate OccursAt(hay: string, needle: string, i: nat) {
    i + |needle| <= |hay| && hay[i..i + |needle|] == needle
  }

  predicate Contains(hay: string, needle: string) {
    exists i: nat | i <= |hay| :: OccursAt(hay, needle, i)
  }

  /** Compares one position ignoring ASCII case. */
  method MatchesAt(hay: string, needle: string, i: nat) returns (same: bool)
    requires i + |needle| <= |hay|
    ensures same <==> OccursAt(Lower(hay), Lower(needle), i)
  {
    ghost var h, n := Lower(hay), Lower(needle);
    var k := 0;
    while k < |needle|
      invariant 0 <= k <= |needle|
      invariant forall j | 0 <= j < k :: h[i + j] == n[j]
    {
      if LowerChar(hay[i + k]) != LowerChar(needle[k]) {
        assert h[i..i + |n|][k] != n[k];
        return false;
      }
      k := k + 1;
    }
    assert h[i..i + |n|] == n;
    return true;
  }

  /** Substring search ignoring ASCII case. */
  method IContains(hay: string, needle: string) returns (found: bool)
    ensures found <==> Contains(Lower(hay), Lower(needle))
  {
    var i := 0;
    while i + |needle| <= |hay|
      invariant 0 <= i <= |hay| + 1
      invariant forall j: nat | j < i :: !OccursAt(Lower(hay), Lower(needle), j)
    {
      var same := MatchesAt(hay, needle, i);
      if same {
        return true;
      }
      i := i + 1;
    }
    return false;
  }

  const MARKERS: seq<string> := [
    "server closed the connection",
    "ssl connection has been closed",
    "connection not open",
    "no connection to the server",
    "could not send data",
    "could not receive data",
    "ssl syscall error",
    "eof detected",
    "terminating connection",
    "connection reset",
    "broken pipe",
    "server conn crashed"]

  predicate ContainsOneOf(msg: string, markers: seq<string>) {
    exists i | 0 <= i < |markers| :: Contains(Lower(msg), Lower(markers[i]))
  }

  predicate IsLostMessage(msg: string) { ContainsOneOf(msg, MARKERS) }

  /** is_connection_lost_message, for any list of markers. */
  method MatchesMarker(msg: string, markers: seq<string>) returns (hit: bool)
    ensures hit <==> ContainsOneOf(msg, markers)
  {
    for i := 0 to |markers|
      invariant forall j | 0 <= j < i :: !Contains(Lower(msg), Lower(markers[j]))
    {
      hit := IContains(msg, markers[i]);
      if hit {
        return;
      }
    }
    hit := false;
  }

  function ClassifySqlState(s: string): RetryClass {
    if |s| != 5 then NoRetry
    else if s in {"08P01", "28P01", "53300", "57P03"} then NotStarted
    else if s in {"40001", "40P01", "55P03"} then RolledBack
    else if s in {"57P01", "57P02", "25P03"} then ConnectionLost
    else if s[0] == '0' && s[1] == '8' then ConnectionLost
    else NoRetry
  }

  /** is_transient_pooler_error of the pool and the transaction. */
  predicate IsTransientPoolerState(s: string) {
    s == "08P01" || s == "28P01" || s == "53300" || s == "57P03"
  }

  function Classify(f: Failure, ioTimedOut: bool): RetryClass {
    if f.code == OK then NoRetry
    else if ioTimedOut then Deadline
    else if ClassifySqlState(f.sqlstate) != NoRetry then ClassifySqlState(f.sqlstate)
    else match f.code
      case ConnectionClosed => if "io deadline exceeded" <= f.error then Deadline else ConnectionLost
      case SocketReadFailed => if "io deadline exceeded" <= f.error then Deadline else ConnectionLost
      case ServerError =>
        if f.sqlstate == "" && (IsLostMessage(f.error) || IsLostMessage(f.message)) then ConnectionLost else NoRetry
      case _ => NoRetry
  }

  /** The two definitions of "never reached a backend" agree. */
  lemma TransientIsNotStarted(s: string)
    ensures IsTransientPoolerState(s) <==> ClassifySqlState(s) == NotStarted
  {}

  /** No server or pooler process took the statement on. */
  predicate NeverStarted(sqlstate: string) { sqlstate in {"08P01", "28P01", "53300", "57P03"} }

  /** The server undid it: serialization failure, deadlock, lock not available. */
  predicate Undone(sqlstate: string) { sqlstate in {"40001", "40P01", "55P03"} }

  /** The server ended the session, or the protocol reports a connection exception. */
  predicate SessionOver(sqlstate: string) {
    && !NeverStarted(sqlstate)
    && (sqlstate in {"57P01", "57P02", "25P03"} || (|sqlstate| == 5 && sqlstate[..2] == "08"))
  }

  predicate NoTransport(c: Code) { c == ConnectionClosed || c == SocketReadFailed }

  /** What each class says of a failure. The SQLSTATE comes before the code, and a passed
      deadline before both. */
  lemma ClassMeans(f: Failure, ioTimedOut: bool)
    requires f.code != OK
    ensures Classify(f, ioTimedOut) == NotStarted <==> !ioTimedOut && NeverStarted(f.sqlstate)
    ensures Classify(f, ioTimedOut) == RolledBack <==> !ioTimedOut && Undone(f.sqlstate)
    ensures var says := NeverStarted(f.sqlstate) || Undone(f.sqlstate) || SessionOver(f.sqlstate);
            && (Classify(f, ioTimedOut) == Deadline
                <==> ioTimedOut || (!says && NoTransport(f.code) && "io deadline exceeded" <= f.error))
            && (Classify(f, ioTimedOut) == ConnectionLost
                <==> && !ioTimedOut && !NeverStarted(f.sqlstate) && !Undone(f.sqlstate)
                     && (|| SessionOver(f.sqlstate)
                         || (NoTransport(f.code) && !("io deadline exceeded" <= f.error))
                         || (f.code == ServerError && f.sqlstate == "" && (IsLostMessage(f.error) || IsLostMessage(f.message)))))
  {
    var s := f.sqlstate;
    if |s| >= 2 { assert s[..2] == [s[0], s[1]] && "08" == ['0', '8']; }
  }

  /** is_fatal_connection_error */
  predicate IsFatal(f: Failure) {
    || f.code == SocketReadFailed || f.code == ConnectionClosed
    || Contains(f.error, "another command is already in progress")
    || Contains(f.error, "could not receive data from server")
    || Contains(f.error, "server closed the connection unexpectedly")
  }

  // ---------- the budget ----------

  const U32 := 0x1_0000_0000
  const U64 := 0x1_0000_0000_0000_0000

  datatype Opts = Opts(retryOnConnectionLoss: bool, idempotent: bool, budgetMs: nat)

  /** The pool's settings; set_transient_retry() keeps attempts at 1 or more. */
  datatype Config = Config(attempts: nat, baseMs: nat)

  predicate ValidConfig(cfg: Config) { cfg.attempts >= 1 && cfg.baseMs < U32 }

  datatype Budget = Budget(attempt: nat, connectionLost: nat, deadline: nat, rolledBack: nat)

  const UNTOUCHED := Budget(0, 0, 0, 0)

  function Power(b: nat, n: nat): nat { if n == 0 then 1 else b * Power(b, n - 1) }

  /** The classes a scope lets through, counters and budget aside. */
  predicate Allowed(o: Opts, cls: RetryClass, scope: RetryScope) {
    match cls
    case NoRetry => false
    case NotStarted => true
    case ConnectionLost => scope.Transaction? || o.idempotent || (scope.Statement? && o.retryOnConnectionLoss)
    case Deadline => scope.Transaction? || o.idempotent
    case RolledBack => !scope.Statement? || o.idempotent
  }

  /** The backoff before try i + 1 of what never started: tripled each time, in 32-bit arithmetic. */
  function TransientDelay(cfg: Config, i: nat): nat { cfg.baseMs * Power(3, i) % U32 }

  /** The backoff before a re-run after the i-th rollback: doubled each time. */
  function RollbackDelay(i: nat): nat { 50 * Power(2, i) % U32 }

  /** The backoff the class still has left, in 32-bit arithmetic. */
  function Backoff(cfg: Config, b: Budget, cls: RetryClass): Option<nat> {
    match cls
    case NoRetry => None
    case NotStarted => if b.attempt + 1 < cfg.attempts then Some(TransientDelay(cfg, b.attempt)) else None
    case ConnectionLost => if b.connectionLost == 0 then Some(0) else None
    case Deadline => if b.deadline == 0 then Some(0) else None
    case RolledBack => if b.rolledBack + 1 < cfg.attempts then Some(RollbackDelay(b.rolledBack)) else None
  }

  /** The budget after the class was counted. */
  function Charge(cfg: Config, b: Budget, cls: RetryClass): Budget {
    match cls
    case NoRetry => b
    case NotStarted => b
    case ConnectionLost => b.(connectionLost := b.connectionLost + 1)
    case Deadline => b.(deadline := b.deadline + 1)
    case RolledBack => if b.rolledBack + 1 < cfg.attempts then b.(rolledBack := b.rolledBack + 1) else b
  }

  /** The retry would start after the wall-clock budget, in 64-bit arithmetic. */
  predicate OverBudget(o: Opts, started: nat, now: nat, delay: nat) {
    o.budgetMs != 0 && (now + delay) % U64 >= (started + o.budgetMs) % U64
  }

  /** The milliseconds before the next attempt; None when the class is not let
      through, its counter is used up, or the attempt would start over budget. */
  function Delay(cfg: Config, o: Opts, b: Budget, cls: RetryClass, scope: RetryScope, started: nat, now: nat): Option<nat> {
    if !Allowed(o, cls, scope) then None else
    var d := Backoff(cfg, b, cls);
    if d.Some? && OverBudget(o, started, now, d.value) then None else d
  }

  /** Who is run again, scope by scope, as long as counters and budget last. A statement by
      default only if it never started; a transaction after any failure that left nothing
      committed; a COMMIT only if its fate is known, or the caller said it may be repeated. */
  lemma AllowedIff(o: Opts, cls: RetryClass)
    ensures Allowed(o, cls, Statement)
            <==> || cls == NotStarted
                 || (cls == ConnectionLost && (o.retryOnConnectionLoss || o.idempotent))
                 || (cls in {Deadline, RolledBack} && o.idempotent)
    ensures Allowed(o, cls, Transaction) <==> cls != NoRetry
    ensures Allowed(o, cls, TransactionCommit)
            <==> cls in {NotStarted, RolledBack} || (cls in {ConnectionLost, Deadline} && o.idempotent)
  {}

  /** The counter of the class has retries left. */
  predicate CounterLeft(cfg: Config, b: Budget, cls: RetryClass) {
    match cls
    case NoRetry => false
    case NotStarted => b.attempt + 1 < cfg.attempts
    case RolledBack => b.rolledBack + 1 < cfg.attempts
    case ConnectionLost => b.connectionLost == 0
    case Deadline => b.deadline == 0
  }

  /** Without a budget a failure is run again exactly when its class may be and its counter
      has not run out; a lost connection and a deadline at once, the others after a while. */
  lemma GrantedIff(cfg: Config, o: Opts, b: Budget, cls: RetryClass, scope: RetryScope, started: nat, now: nat)
    requires o.budgetMs == 0
    ensures var d := Delay(cfg, o, b, cls, scope, started, now);
            && (d.Some? <==> Allowed(o, cls, scope) && CounterLeft(cfg, b, cls))
            && (d.Some? && cls in {ConnectionLost, Deadline} ==> d.value == 0)
            && (d.Some? && cls == NotStarted ==> d.value == cfg.baseMs * Power(3, b.attempt) % U32)
            && (d.Some? && cls == RolledBack ==> d.value == 50 * Power(2, b.rolledBack) % U32)
  {}

  /** The counters one call keeps across its attempts. */
  class RetryBudget {
    const opts: Opts
    const started: nat
    var attempt: nat
    var connectionLost: nat
    var deadline: nat
    var rolledBack: nat

    ghost function View(): Budget
      reads this
    {
      Budget(attempt, connectionLost, deadline, rolledBack)
    }

    constructor (o: Opts, now: nat)
      ensures opts == o && started == now && View() == UNTOUCHED
    {
      opts, started := o, now;
      attempt, connectionLost, deadline, rolledBack := 0, 0, 0, 0;
    }

    method NextRetryDelay(cfg: Config, cls: RetryClass, scope: RetryScope, now: nat) returns (delay: Option<nat>)
      requires ValidConfig(cfg)
      modifies this
      ensures delay == Delay(cfg, opts, old(View()), cls, scope, started, now)
      ensures View() == if Allowed(opts, cls, scope) then Charge(cfg, old(View()), cls) else old(View())
    {
      delay := None;
      if Allowed(opts, cls, scope) {
        match cls {
          case NotStarted =>
            if attempt + 1 < cfg.attempts {
              var ms := Tripled(cfg.baseMs, attempt);
              delay := Some(ms);
            }
          case ConnectionLost =>
            if connectionLost == 0 { delay := Some(0); }
            connectionLost := connectionLost + 1;
          case Deadline =>
            if deadline == 0 { delay := Some(0); }
            deadline := deadline + 1;
          case RolledBack =>
            if rolledBack + 1 < cfg.attempts {
              delay := Some(50 * Power(2, rolledBack) % U32);
              rolledBack := rolledBack + 1;
            }
          case NoRetry =>
        }
        if delay.Some? && OverBudget(opts, started, now, delay.value) {
          delay := None;
        }
      }
    }
  }

  /** base * 3^n in 32-bit arithmetic, one multiplication at a time. */
  method Tripled(base: nat, n: nat) returns (ms: nat)
    requires base < U32
    ensures ms == base * Power(3, n) % U32
  {
    ms := base;
    for i := 0 to n
      invariant ms == base * Power(3, i) % U32
    {
      TripleWraps(base * Power(3, i));
      PowerStep(base, i);
      ms := ms * 3 % U32;
    }
  }

  lemma PowerStep(base: nat, i: nat)
    ensures 3 * (base * Power(3, i)) == base * Power(3, i + 1)
  {
    assert Power(3, i + 1) == 3 * Power(3, i);
  }

  lemma RemainderIs(x: nat, q: nat, r: nat)
    requires x == U32 * q + r && r < U32
    ensures x % U32 == r
  {
  }

  lemma TripleWraps(x: nat)
    ensures (x % U32) * 3 % U32 == 3 * x % U32
  {
    var q, r := x / U32, x % U32;
    var d, e := 3 * r / U32, 3 * r % U32;
    assert x == U32 * q + r && 3 * r == U32 * d + e;
    RemainderIs(3 * x, 3 * q + d, e);
  }
}
