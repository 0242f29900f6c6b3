/** Transactions and savepoints as objects that borrow connections. `moves` records
    every connection an object took and how it left again; what the calls promise
    about the outcome is said in terms of the answers they meet. */
module Transaction {
  import opened Wrappers
  import opened RetryPolicy
  import opened Traffic

  /** The outcome of one statement on the connection. */
  datatype Reply = Reply(ok: bool, f: Failure)

  predicate IsFatalReply(r: Reply) { !r.ok && IsFatal(r.f) }

  predicate IsTransient(r: Reply) { !r.ok && IsTransientPoolerState(r.f.sqlstate) }

  /** One try of begin(): what the pool hands out, and the answer to BEGIN. */
  datatype OpenTry = OpenTry(got: Option<Conn>, connected: bool, begin: Reply, slept: bool)

  const ACQUIRE_FAILED := Failure(ConnectionClosed, "failed to acquire connection from pool", "", "")
  const NOT_CONNECTED := Failure(ConnectionClosed, "connection not OK", "", "")
  const LOST_IN_TRANSACTION := Failure(ConnectionClosed, "connection lost in transaction", "", "")
  const ABORTED_EARLIER := Failure(ServerError, "transaction is aborted (a statement failed); COMMIT rolled it back",
                                  "25P02", "current transaction is aborted")
  const NOT_ACTIVE := Failure(InvalidFuture, "transaction not active", "", "")

  /** How one try of begin() ends; only a BEGIN that never started may be tried again. */
  datatype TryEnd = Opened | GivesUp(f: Failure, sent: bool) | MayRetry(f: Failure)

  function TryEndOf(emulated: bool, t: OpenTry): TryEnd {
    if t.got.None? then GivesUp(ACQUIRE_FAILED, false)
    else if !t.connected then GivesUp(NOT_CONNECTED, false)
    else if emulated || t.begin.ok then Opened
    else if IsTransient(t.begin) then MayRetry(t.begin.f)
    else GivesUp(t.begin.f, true)
  }

  /** Why begin() fails, if it does. */
  function OpenError(emulated: bool, attempts: nat, env: nat -> OpenTry, i: nat): Option<Failure>
    decreases attempts - i
  {
    match TryEndOf(emulated, env(i))
    case Opened => None
    case GivesUp(f, _) => Some(f)
    case MayRetry(f) => if i + 1 < attempts && env(i).slept then OpenError(emulated, attempts, env, i + 1) else Some(f)
  }

  /** Try j of BEGIN is followed by another one: it reached no backend. */
  predicate TriedAgain(emulated: bool, attempts: nat, t: OpenTry, j: nat) {
    && !emulated && t.got.Some? && t.connected && !t.begin.ok && t.slept && j + 1 < attempts
    && t.begin.f.sqlstate in {"08P01", "28P01", "53300", "57P03"}
  }

  /** begin() fails with the error of try k, or with none. */
  predicate EndsWith(emulated: bool, t: OpenTry, err: Option<Failure>) {
    if t.got.None? then err == Some(ACQUIRE_FAILED)
    else if !t.connected then err == Some(NOT_CONNECTED)
    else if emulated || t.begin.ok then err == None
    else err == Some(t.begin.f)
  }

  /** The first try that is not repeated decides. */
  lemma {:induction false} OpenDecides(emulated: bool, attempts: nat, env: nat -> OpenTry, i: nat) returns (k: nat)
    ensures i <= k && forall j: nat | i <= j < k :: TriedAgain(emulated, attempts, env(j), j)
    ensures !TriedAgain(emulated, attempts, env(k), k)
    ensures EndsWith(emulated, env(k), OpenError(emulated, attempts, env, i))
    decreases attempts - i
  {
    k := i;
    if TriedAgain(emulated, attempts, env(i), i) { k := OpenDecides(emulated, attempts, env, i + 1); }
  }

  /** The milliseconds begin() asks to sleep between its tries, from try i on. */
  function OpenSleep(emulated: bool, cfg: Config, env: nat -> OpenTry, i: nat): nat
    decreases cfg.attempts - i
  {
    if !TryEndOf(emulated, env(i)).MayRetry? || i + 1 >= cfg.attempts then 0
    else TransientDelay(cfg, i) + if env(i).slept then OpenSleep(emulated, cfg, env, i + 1) else 0
  }

  /** What commit() meets: is the connection up, did a statement fail before, the
      answer to COMMIT, and the answer to a ROLLBACK sent instead. */
  datatype CommitEnv = CommitEnv(connected: bool, inError: bool, reply: Reply, rollback: Reply)

  /** COMMIT is actually sent. */
  predicate SendsCommit(emulated: bool, usable: bool, env: CommitEnv) {
    usable && env.connected && !emulated && !env.inError
  }

  /** The error commit() leaves behind on an active transaction, None when it succeeds. */
  function CommitError(emulated: bool, held: bool, env: CommitEnv): Option<Failure> {
    if !held || !env.connected then Some(LOST_IN_TRANSACTION)
    else if emulated then None
    else if env.inError then Some(ABORTED_EARLIER)
    else if env.reply.ok then None
    else Some(env.reply.f)
  }

  /** What one try of a statement meets; got / gotConnected are the replacement
      connection of an emulated read-only transaction. */
  datatype QueryTry = QueryTry(connected: bool, reply: Reply, slept: bool, got: Option<Conn>, gotConnected: bool)

  /** What a statement leaves: its answer, and whether the transaction is still
      active and still has a connection. */
  datatype Answered = Answered(reply: Reply, active: bool, held: bool)

  /** A statement on an active transaction that has a connection, from try i on. */
  function QueryAnswer(emulated: bool, attempts: nat, dropDead: bool, env: nat -> QueryTry, i: nat): Answered
    decreases attempts - i
  {
    var t := env(i);
    if !t.connected then
      if dropDead then Answered(Reply(false, LOST_IN_TRANSACTION), false, false) else Answered(Reply(false, NOT_ACTIVE), true, true)
    else if emulated && IsTransient(t.reply) && i + 1 < attempts then
      if !t.slept then Answered(t.reply, true, false)
      else if t.got.None? || !t.gotConnected then Answered(t.reply, false, false)
      else QueryAnswer(emulated, attempts, dropDead, env, i + 1)
    else Answered(t.reply, !IsFatalReply(t.reply), !IsFatalReply(t.reply))
  }

  /** Try j of a statement is followed by another one, on a fresh connection. */
  predicate RunAgain(emulated: bool, attempts: nat, t: QueryTry, j: nat) {
    && emulated && t.connected && !t.reply.ok && j + 1 < attempts && t.slept && t.got.Some? && t.gotConnected
    && t.reply.f.sqlstate in {"08P01", "28P01", "53300", "57P03"}
  }

  /** What the caller of a statement gets of the try that decides. */
  predicate AnswersWith(emulated: bool, dropDead: bool, t: QueryTry, a: Answered) {
    if t.connected then
      && a.reply == t.reply
      && (t.reply.ok ==> a.active && a.held)
      && (!t.reply.ok && !emulated ==> a.active == a.held == !IsFatal(t.reply.f))
    else a.reply == Reply(false, if dropDead then LOST_IN_TRANSACTION else NOT_ACTIVE) && a.active == a.held == !dropDead
  }

  lemma {:induction false} QueryDecides(emulated: bool, attempts: nat, dropDead: bool, env: nat -> QueryTry, i: nat) returns (k: nat)
    ensures i <= k && forall j: nat | i <= j < k :: RunAgain(emulated, attempts, env(j), j)
    ensures !RunAgain(emulated, attempts, env(k), k)
    ensures AnswersWith(emulated, dropDead, env(k), QueryAnswer(emulated, attempts, dropDead, env, i))
    decreases attempts - i
  {
    k := i;
    if RunAgain(emulated, attempts, env(i), i) { k := QueryDecides(emulated, attempts, dropDead, env, i + 1); }
  }

  /** The milliseconds the statement asks to sleep between its tries, from try i on. */
  function QuerySleep(emulated: bool, cfg: Config, env: nat -> QueryTry, i: nat): nat
    decreases cfg.attempts - i
  {
    var t := env(i);
    if !t.connected || !emulated || !IsTransient(t.reply) || i + 1 >= cfg.attempts then 0
    else TransientDelay(cfg, i) + if t.slept && t.got.Some? && t.gotConnected then QuerySleep(emulated, cfg, env, i + 1) else 0
  }

  /** The connection leaves, closed or not; without one nothing moves. */
  function Leaves(conn: Option<Conn>, closed: bool): seq<Move> {
    if conn.None? then [] else [if closed then Closed(conn.value) else GaveBack(conn.value)]
  }

  /** In between no connection went back to the pool as usable. */
  predicate NoneGivenBack(before: seq<Move>, after: seq<Move>) {
    before <= after && forall i | |before| <= i < |after| :: !after[i].GaveBack?
  }

  lemma StillNoneGivenBack(before: seq<Move>, after: seq<Move>, more: seq<Move>)
    requires NoneGivenBack(before, after) && forall i | 0 <= i < |more| :: !more[i].GaveBack?
    ensures NoneGivenBack(before, after + more)
  {
  }

  class PgTransaction {
    const emulated: bool  // read-only without BEGIN: every statement commits by itself
    var conn: Option<Conn>
    var active: bool
    var committed: bool
    var rolledBack: bool
    var lastCommitError: Option<Failure>

    ghost var moves: seq<Move>

    /** Every connection taken is held now, or left exactly once. */
    ghost predicate Accounted()
      reads this
    {
      Paired(moves, conn)
    }

    /** Since then at most one connection moved, and it left. */
    ghost predicate LeftSince(before: seq<Move>)
      reads this
    {
      moves == before || (before <= moves && |moves| == |before| + 1 && !moves[|before|].Took?)
    }

    /** The state between two calls. */
    ghost predicate Valid()
      reads this
    {
      && Accounted()
      && (!active ==> conn.None?)
      && (active ==> !committed && !rolledBack)
      && !(committed && rolledBack)
    }

    constructor (emulate: bool)
      ensures Valid() && emulated == emulate && !active && !committed && !rolledBack && lastCommitError.None?
      ensures moves == []
    {
      emulated := emulate;
      conn, active, committed, rolledBack, lastCommitError := None, false, false, false, None;
      moves := [];
    }

    // ---------- connection in, connection out ----------

    method Take(c: Conn)
      requires Accounted() && conn.None?
      modifies this`conn, this`moves
      ensures Accounted() && conn == Some(c) && moves == old(moves) + [Took(c)]
    {
      conn := Some(c);
      moves := moves + [Took(c)];
    }

    /** Hands the connection, if any, back to the pool, at once or after draining it. */
    method Release()
      requires Accounted()
      modifies this`conn, this`moves
      ensures Accounted() && conn.None?
      ensures moves == old(moves) + if old(conn).Some? then [GaveBack(old(conn).value)] else []
    {
      if conn.Some? {
        moves := moves + [GaveBack(conn.value)];
        conn := None;
      }
    }

    method Kill()
      requires Accounted()
      modifies this`conn, this`moves
      ensures Accounted() && conn.None?
      ensures moves == old(moves) + if old(conn).Some? then [Closed(old(conn).value)] else []
    {
      if conn.Some? {
        moves := moves + [Closed(conn.value)];
        conn := None;
      }
    }

    /** Afterwards nothing is held and the verdict is a rollback; a connection that was
        held has left as closed. */
    method DropConnection()
      requires Accounted()
      modifies this`conn, this`moves, this`active, this`committed, this`rolledBack
      ensures Valid() && conn.None? && !active && rolledBack && !committed && LeftSince(old(moves))
      ensures moves == old(moves) + Leaves(old(conn), true)
    {
      Kill();
      active, rolledBack, committed := false, true, false;
    }

    // ---------- begin ----------

    /** One try: a connection from the pool, and BEGIN on it unless emulated. */
    method TryOpen(t: OpenTry) returns (end: TryEnd)
      requires Accounted() && conn.None?
      modifies this`conn, this`moves
      ensures Accounted() && end == TryEndOf(emulated, t)
      ensures conn == if end.Opened? then t.got else None
      ensures moves == old(moves) + if t.got.None? then [] else [Took(t.got.value)] + if end.Opened? then [] else [Closed(t.got.value)]
    {
      if t.got.None? {
        return GivesUp(ACQUIRE_FAILED, false);
      }
      Take(t.got.value);
      if !t.connected {
        Kill();
        return GivesUp(NOT_CONNECTED, false);
      }
      if !emulated && !t.begin.ok {
        Kill();
        return if IsTransient(t.begin) then MayRetry(t.begin.f) else GivesUp(t.begin.f, true);
      }
      return Opened;
    }

    method Open(cfg: Config, env: nat -> OpenTry) returns (err: Option<Failure>, ghost asked: nat)
      requires Valid() && ValidConfig(cfg)
      modifies this
      ensures Valid()
      ensures old(active) ==> err.None? && active && conn == old(conn) && LeftSince(old(moves)) && asked == 0
      ensures !old(active) ==> err == OpenError(emulated, cfg.attempts, env, 0) && asked == OpenSleep(emulated, cfg, env, 0)
      ensures err.None? ==> active
      ensures err.Some? ==> !active && conn.None?
      ensures !old(active) && err.None? ==> conn.Some? && lastCommitError.None?
      ensures NoneGivenBack(old(moves), moves)
    {
      asked := 0;
      if active {
        return None, 0;
      }
      var attempt := 0;
      while true
        invariant Accounted() && conn.None? && !active && !(committed && rolledBack)
        invariant OpenError(emulated, cfg.attempts, env, attempt) == OpenError(emulated, cfg.attempts, env, 0)
        invariant asked + OpenSleep(emulated, cfg, env, attempt) == OpenSleep(emulated, cfg, env, 0)
        invariant NoneGivenBack(old(moves), moves)
        decreases cfg.attempts - attempt
      {
        var end := TryOpen(env(attempt));
        match end {
          case Opened => {
            active, committed, rolledBack, lastCommitError := true, false, false, None;
            return None, asked;
          }
          case GivesUp(f, sent) => {
            if sent {
              committed, rolledBack := false, false;
            }
            return Some(f), asked;
          }
          case MayRetry(f) => {
            var again := false;
            if attempt + 1 < cfg.attempts {
              var ms := Tripled(cfg.baseMs, attempt);
              asked := asked + ms;
              again := env(attempt).slept;
            }
            if !again {
              committed, rolledBack := false, false;
              return Some(f), asked;
            }
            attempt := attempt + 1;
          }
        }
      }
    }

    // ---------- end ----------

    method Commit(env: CommitEnv) returns (ok: bool)
      requires Valid()
      modifies this
      ensures Valid() && !active && conn.None? && LeftSince(old(moves))
      ensures !old(active) ==>
                !ok && committed == old(committed) && rolledBack == old(rolledBack) && lastCommitError == old(lastCommitError)
      ensures old(active) ==>
                && lastCommitError == CommitError(emulated, old(conn).Some?, env)
                && ok == committed == lastCommitError.None? && rolledBack == !ok
      // COMMIT was sent: the server's answer decides
      ensures old(active) && old(conn).Some? && env.connected && !emulated && !env.inError ==>
                && lastCommitError == (if env.reply.ok then None else Some(env.reply.f))
                && moves == old(moves) + Leaves(old(conn), IsFatalReply(env.reply))
      ensures old(active) && old(conn).Some? && env.connected && !emulated && env.inError ==>
                lastCommitError == Some(ABORTED_EARLIER) && moves == old(moves) + Leaves(old(conn), IsFatalReply(env.rollback))
      ensures old(active) && old(conn).Some? && env.connected && emulated ==>
                lastCommitError == None && moves == old(moves) + Leaves(old(conn), false)
      ensures old(active) && (old(conn).None? || !env.connected) ==>
                lastCommitError == Some(LOST_IN_TRANSACTION) && moves == old(moves) + Leaves(old(conn), true)
    {
      if !active {
        return false;
      }
      lastCommitError := None;
      if conn.None? || !env.connected {
        lastCommitError := Some(LOST_IN_TRANSACTION);
        DropConnection();
        return false;
      }
      if emulated {
        committed, rolledBack, active := true, false, false;
        Release();
        return true;
      }
      if env.inError {
        lastCommitError := Some(ABORTED_EARLIER);
        EndWith(true, env.rollback);
        return false;
      }
      active, committed, rolledBack := false, env.reply.ok, !env.reply.ok;
      if !env.reply.ok {
        lastCommitError := Some(env.reply.f);
      }
      if IsFatalReply(env.reply) {
        Kill();
      } else {
        Release();
      }
      return env.reply.ok;
    }

    /** ROLLBACK or ABORT, then the connection back. */
    method EndWith(connected: bool, reply: Reply)
      requires Accounted()
      modifies this`conn, this`moves, this`active, this`committed, this`rolledBack
      ensures Valid() && conn.None? && !active && rolledBack && !committed && LeftSince(old(moves))
      ensures moves == old(moves) + Leaves(old(conn), !emulated && connected && IsFatalReply(reply))
    {
      if !emulated && conn.Some? && connected && IsFatalReply(reply) {
        Kill();
      }
      committed, rolledBack, active := false, true, false;
      Release();
    }

    /** rollback() and abort() */
    method Rollback(connected: bool, reply: Reply)
      requires Valid()
      modifies this
      ensures Valid() && !active && conn.None? && LeftSince(old(moves)) && lastCommitError == old(lastCommitError)
      ensures if old(active) then rolledBack && !committed
              else committed == old(committed) && rolledBack == old(rolledBack)
      ensures moves == old(moves) + Leaves(old(conn), !emulated && connected && IsFatalReply(reply))
    {
      if active {
        EndWith(connected, reply);
      }
    }

    method Finish(connected: bool, reply: Reply)
      requires Valid()
      modifies this
      ensures Valid() && !active && conn.None? && LeftSince(old(moves)) && lastCommitError == old(lastCommitError)
      ensures if old(active) then rolledBack && !committed
              else committed == old(committed) && rolledBack == old(rolledBack)
      ensures moves == old(moves) + Leaves(old(conn), !emulated && connected && IsFatalReply(reply))
    {
      if active {
        EndWith(connected, reply);
      } else {
        Release();
      }
    }

    /** The destructor: an unfinished transaction loses its connection. */
    method Destroy()
      requires Valid()
      modifies this`conn, this`moves
      ensures conn.None? && Paired(moves, None) && moves == old(moves) + Leaves(old(conn), true)
    {
      Kill();
    }

    // ---------- statements ----------

    /** The coroutine behind every statement. A statement that never started is
        run again on a fresh connection in emulated mode only. */
    method Query(cfg: Config, dropDead: bool, env: nat -> QueryTry) returns (r: Reply, ghost asked: nat)
      requires Valid() && ValidConfig(cfg)
      modifies this
      ensures Valid() && lastCommitError == old(lastCommitError)
      ensures !old(active) || old(conn).None? ==>
                && r == Reply(false, NOT_ACTIVE) && conn == old(conn) && active == old(active)
                && committed == old(committed) && rolledBack == old(rolledBack) && asked == 0
      ensures old(active) && old(conn).Some? ==>
                && Answered(r, active, conn.Some?) == QueryAnswer(emulated, cfg.attempts, dropDead, env, 0)
                && asked == QuerySleep(emulated, cfg, env, 0)
      ensures old(active) && !active ==> rolledBack
      ensures !emulated ==> LeftSince(old(moves))
      ensures NoneGivenBack(old(moves), moves)
    {
      asked := 0;
      var attempt := 0;
      while true
        invariant Valid() && lastCommitError == old(lastCommitError) && active == old(active)
        invariant committed == old(committed) && rolledBack == old(rolledBack)
        invariant !old(active) || old(conn).None? ==> conn == old(conn) && asked == 0
        invariant active && old(conn).Some? ==>
                    && conn.Some?
                    && QueryAnswer(emulated, cfg.attempts, dropDead, env, attempt)
                       == QueryAnswer(emulated, cfg.attempts, dropDead, env, 0)
                    && asked + QuerySleep(emulated, cfg, env, attempt) == QuerySleep(emulated, cfg, env, 0)
        invariant !emulated ==> LeftSince(old(moves))
        invariant NoneGivenBack(old(moves), moves)
        decreases cfg.attempts - attempt
      {
        if !active || conn.None? {
          return Reply(false, NOT_ACTIVE), asked;
        }
        var t := env(attempt);
        if !t.connected {
          if !dropDead {
            return Reply(false, NOT_ACTIVE), asked;
          }
          DropConnection();
          return Reply(false, LOST_IN_TRANSACTION), asked;
        }
        if emulated && IsTransient(t.reply) && attempt + 1 < cfg.attempts {
          var ms := Tripled(cfg.baseMs, attempt);
          asked := asked + ms;
          var again := Reacquire(t);
          if !again {
            return t.reply, asked;
          }
          attempt := attempt + 1;
          continue;
        }
        if IsFatalReply(t.reply) {
          DropConnection();
        }
        return t.reply, asked;
      }
    }

    /** Replaces the connection; a canceled sleep leaves none, a failed acquire ends the transaction. */
    method Reacquire(t: QueryTry) returns (again: bool)
      requires Valid() && active
      modifies this`conn, this`moves, this`active, this`committed, this`rolledBack
      ensures Valid()
      ensures again == (t.slept && t.got.Some? && t.gotConnected)
      ensures again ==> active && conn == t.got
      ensures !again ==> conn.None? && active == !t.slept && (active || rolledBack)
      ensures active ==> committed == old(committed) && rolledBack == old(rolledBack)
      ensures NoneGivenBack(old(moves), moves)
    {
      ghost var start := moves;
      Kill();
      StillNoneGivenBack(start, start, Leaves(old(conn), true));
      if !t.slept {
        return false;
      }
      if t.got.Some? {
        StillNoneGivenBack(start, moves, [Took(t.got.value)]);
        Take(t.got.value);
      }
      if conn.None? || !t.gotConnected {
        StillNoneGivenBack(start, moves, Leaves(conn, true));
        DropConnection();
        return false;
      }
      return true;
    }
  }

  /** A savepoint command was sent on the parent's connection and the answer is fatal. */
  predicate EndsParent(sent: bool, reply: Reply) { sent && IsFatalReply(reply) }

  /** A SAVEPOINT scope; its statements go to the parent's connection. */
  class PgSubtransaction {
    const parent: PgTransaction
    var active: bool
    var committed: bool
    var rolledBack: bool

    ghost predicate Valid()
      reads this
    {
      (active ==> !committed && !rolledBack) && !(committed && rolledBack)
    }

    constructor (tx: PgTransaction)
      ensures Valid() && parent == tx && !active && !committed && !rolledBack
    {
      parent := tx;
      active, committed, rolledBack := false, false, false;
    }

    /** The parent is as it was, or a fatal answer has ended it. */
    twostate predicate ParentAfter(ended: bool)
      reads this, parent
    {
      && parent.lastCommitError == old(parent.lastCommitError)
      && (ended ==> !parent.active && parent.conn.None? && parent.rolledBack && !parent.committed)
      && (!ended ==> && parent.active == old(parent.active) && parent.conn == old(parent.conn)
                     && parent.rolledBack == old(parent.rolledBack) && parent.committed == old(parent.committed))
      && parent.moves == old(parent.moves) + Leaves(if ended then old(parent.conn) else None, true)
    }

    /** Any savepoint statement. The parent changes exactly when the answer is fatal,
        and then it is over. */
    method RunControl(reply: Reply) returns (ok: bool)
      requires parent.Valid() && parent.conn.Some?
      modifies parent
      ensures parent.Valid() && ok == reply.ok && parent.LeftSince(old(parent.moves))
      ensures ParentAfter(IsFatalReply(reply))
    {
      if IsFatalReply(reply) {
        parent.DropConnection();
      }
      return reply.ok;
    }

    method Begin(connected: bool, reply: Reply) returns (ok: bool)
      requires Valid() && parent.Valid()
      modifies this, parent
      ensures Valid() && parent.Valid() && parent.LeftSince(old(parent.moves))
      ensures ok == (old(parent.active) && old(parent.conn).Some? && connected && !parent.emulated && reply.ok)
      ensures ok ==> active
      ensures ParentAfter(EndsParent(old(parent.active) && old(parent.conn).Some? && connected && !parent.emulated, reply))
      ensures !ok ==> active == old(active) && committed == old(committed) && rolledBack == old(rolledBack)
    {
      if !parent.active || parent.conn.None? || !connected || parent.emulated {
        return false;
      }
      ok := RunControl(reply);
      if ok {
        active, committed, rolledBack := true, false, false;
      }
    }

    method Commit(connected: bool, reply: Reply) returns (ok: bool)
      requires Valid() && parent.Valid()
      modifies this, parent
      ensures Valid() && parent.Valid() && parent.LeftSince(old(parent.moves))
      ensures !old(active) ==> !ok && !active && committed == old(committed) && rolledBack == old(rolledBack)
      ensures old(active) && !(parent.emulated && old(parent.conn).Some? && connected) ==>
                && !active && committed == ok && rolledBack == !ok
                && ok == (old(parent.conn).Some? && connected && reply.ok)
      ensures old(active) && parent.emulated && old(parent.conn).Some? && connected ==> !ok && active
      ensures ParentAfter(EndsParent(old(active) && old(parent.conn).Some? && connected && !parent.emulated, reply))
    {
      if !active {
        return false;
      }
      if parent.conn.None? || !connected {
        active, committed, rolledBack := false, false, true;
        return false;
      }
      if parent.emulated {
        return false;
      }
      ok := RunControl(reply);
      active, committed, rolledBack := false, ok, !ok;
    }

    method Rollback(connected: bool, reply: Reply)
      requires Valid() && parent.Valid()
      modifies this, parent
      ensures Valid() && parent.Valid() && !active && parent.LeftSince(old(parent.moves))
      ensures old(active) ==> rolledBack && !committed
      ensures !old(active) ==> committed == old(committed) && rolledBack == old(rolledBack)
      ensures ParentAfter(EndsParent(old(active) && old(parent.conn).Some? && connected && !parent.emulated, reply))
    {
      if !active {
        return;
      }
      if !parent.emulated && parent.conn.Some? && connected {
        var ok := RunControl(reply);
      }
      active, committed, rolledBack := false, false, true;
    }
  }

  // ---------- calls ----------

  datatype SavepointCall =
    | Begins(connected: bool, reply: Reply)
    | Commits(connected: bool, reply: Reply)
    | RollsBack(connected: bool, reply: Reply)

  /** A call on a transaction, or on one of the savepoints made from it so far; a number
      no savepoint has stands for no call. */
  datatype Call =
    | DoOpen(open: nat -> OpenTry)
    | DoQuery(dropDead: bool, query: nat -> QueryTry)
    | DoCommit(commit: CommitEnv)
    | DoRollback(connected: bool, reply: Reply)
    | DoFinish(connected: bool, reply: Reply)
    | DoMakeSavepoint
    | DoSavepoint(which: nat, call: SavepointCall)

  /** A transaction as far as its end depends on it: active, with a connection, and
      which of its savepoints are open. */
  datatype Live = Live(active: bool, held: bool, savepoints: seq<bool>)

  function EndIf(l: Live, ended: bool): Live { if ended then l.(active := false, held := false) else l }

  /** A savepoint's call goes out on the parent's connection; `on` tells whether the savepoint is open. */
  predicate SendsControl(emulated: bool, l: Live, on: bool, call: SavepointCall) {
    l.held && call.connected && !emulated && if call.Begins? then l.active else on
  }

  /** The savepoint is open afterwards. */
  predicate OpenAfter(emulated: bool, l: Live, on: bool, call: SavepointCall) {
    match call
    case Begins(_, reply) => on || (SendsControl(emulated, l, on, call) && reply.ok)
    case Commits(connected, _) => on && l.held && connected && emulated
    case RollsBack(_, _) => false
  }

  function SavepointAfter(emulated: bool, l: Live, which: nat, call: SavepointCall): Live
    requires which < |l.savepoints|
  {
    var on := l.savepoints[which];
    EndIf(l.(savepoints := l.savepoints[which := OpenAfter(emulated, l, on, call)]),
          EndsParent(SendsControl(emulated, l, on, call), call.reply))
  }

  function LiveAfter(emulated: bool, cfg: Config, l: Live, call: Call): Live
    requires !call.DoOpen? && !call.DoCommit?
  {
    match call
    case DoQuery(dropDead, env) =>
      if !l.active || !l.held then l
      else var a := QueryAnswer(emulated, cfg.attempts, dropDead, env, 0); l.(active := a.active, held := a.held)
    case DoRollback(_, _) => l.(active := false, held := false)
    case DoFinish(_, _) => l.(active := false, held := false)
    case DoMakeSavepoint => l.(savepoints := l.savepoints + [false])
    case DoSavepoint(which, c) => if which < |l.savepoints| then SavepointAfter(emulated, l, which, c) else l
  }

  /** The milliseconds a call asks to sleep. */
  function CallSleep(emulated: bool, cfg: Config, l: Live, call: Call): nat {
    if call.DoQuery? && l.active && l.held then QuerySleep(emulated, cfg, call.query, 0) else 0
  }

  ghost predicate AllSavepointsOf(tx: PgTransaction, subs: seq<PgSubtransaction>)
    reads subs
  {
    && (forall i | 0 <= i < |subs| :: subs[i].parent == tx && subs[i].Valid())
    && (forall i, j | 0 <= i < j < |subs| :: subs[i] != subs[j])
  }

  ghost predicate Shows(l: Live, tx: PgTransaction, subs: seq<PgSubtransaction>)
    reads tx, subs
  {
    && l.active == tx.active && l.held == tx.conn.Some? && |l.savepoints| == |subs|
    && (forall i | 0 <= i < |subs| :: l.savepoints[i] == subs[i].active)
  }

  /** One call on a savepoint. */
  method PerformOn(tx: PgTransaction, subs: seq<PgSubtransaction>, which: nat, call: SavepointCall, ghost l: Live)
    requires tx.Valid() && AllSavepointsOf(tx, subs) && Shows(l, tx, subs) && which < |subs|
    modifies tx, subs
    ensures tx.Valid() && AllSavepointsOf(tx, subs) && tx.lastCommitError == old(tx.lastCommitError)
    ensures Shows(SavepointAfter(tx.emulated, l, which, call), tx, subs)
    ensures !old(tx.committed) ==> !tx.committed
  {
    var sub := subs[which];
    match call {
      case Begins(connected, reply) => var ok := sub.Begin(connected, reply);
      case Commits(connected, reply) => var ok := sub.Commit(connected, reply);
      case RollsBack(connected, reply) => sub.Rollback(connected, reply);
    }
  }

  /** One call on a transaction or on one of its savepoints, which are `subs` before and `all` after it. */
  method Perform(tx: PgTransaction, subs: seq<PgSubtransaction>, cfg: Config, call: Call, ghost l: Live)
    returns (all: seq<PgSubtransaction>, ghost asked: nat)
    requires ValidConfig(cfg) && tx.Valid() && AllSavepointsOf(tx, subs) && Shows(l, tx, subs)
    requires !call.DoOpen? && !call.DoCommit?
    modifies tx, subs
    ensures subs <= all && forall i | |subs| <= i < |all| :: fresh(all[i])
    ensures tx.Valid() && AllSavepointsOf(tx, all) && tx.lastCommitError == old(tx.lastCommitError)
    ensures Shows(LiveAfter(tx.emulated, cfg, l, call), tx, all) && asked == CallSleep(tx.emulated, cfg, l, call)
    ensures !old(tx.committed) ==> !tx.committed
  {
    all, asked := subs, 0;
    match call {
      case DoQuery(dropDead, query) =>
        var r;
        r, asked := tx.Query(cfg, dropDead, query);
      case DoRollback(connected, reply) => tx.Rollback(connected, reply);
      case DoFinish(connected, reply) => tx.Finish(connected, reply);
      case DoMakeSavepoint =>
        var sub := new PgSubtransaction(tx);
        all := subs + [sub];
      case DoSavepoint(which, c) =>
        if which < |subs| {
          PerformOn(tx, subs, which, c, l);
        }
    }
  }

  // ---------- any sequence of calls ----------

  /** Whatever calls are made on a transaction and on any number of savepoints of it, in any
      order and with any outcomes, when the object is gone each connection it
      took has left it exactly once, to the pool or closed. */
  method AnyCalls(emulate: bool, cfg: Config, calls: seq<Call>) returns (tx: PgTransaction)
    requires ValidConfig(cfg)
    ensures fresh(tx) && tx.conn.None? && !(tx.committed && tx.rolledBack)
    ensures Paired(tx.moves, None)
    ensures forall c :: Count(tx.moves, Took(c)) == Count(tx.moves, GaveBack(c)) + Count(tx.moves, Closed(c))
  {
    tx := new PgTransaction(emulate);
    var subs: seq<PgSubtransaction> := [];
    for i := 0 to |calls|
      invariant fresh(tx) && tx.Valid() && AllSavepointsOf(tx, subs)
      invariant forall k | 0 <= k < |subs| :: fresh(subs[k])
    {
      ghost var asked;
      if calls[i].DoOpen? {
        var err;
        err, asked := tx.Open(cfg, calls[i].open);
      } else if calls[i].DoCommit? {
        var ok := tx.Commit(calls[i].commit);
      } else {
        ghost var flags := seq(|subs|, k requires 0 <= k < |subs| reads subs => subs[k].active);
        subs, asked := Perform(tx, subs, cfg, calls[i], Live(tx.active, tx.conn.Some?, flags));
      }
    }
    tx.Destroy();
    forall c
      ensures Count(tx.moves, Took(c)) == Count(tx.moves, GaveBack(c)) + Count(tx.moves, Closed(c))
    {
      PairedConserves(tx.moves, None, c);
    }
  }

  // ---------- what calls leave of an open transaction ----------

  /** A caller that leaves the end of the transaction to others, or rolls it back. */
  predicate LeavesCommit(calls: seq<Call>) {
    forall i | 0 <= i < |calls| :: !calls[i].DoOpen? && !calls[i].DoCommit?
  }

  type BodyCalls = calls: seq<Call> | LeavesCommit(calls) witness []

  /** The transaction after the first n calls on it, just opened. */
  function LiveTo(emulated: bool, cfg: Config, calls: BodyCalls, n: nat): Live
    requires n <= |calls|
  {
    if n == 0 then Live(true, true, []) else LiveAfter(emulated, cfg, LiveTo(emulated, cfg, calls, n - 1), calls[n - 1])
  }

  /** The milliseconds those calls ask to sleep. */
  function BodySleep(emulated: bool, cfg: Config, calls: BodyCalls, n: nat): nat
    requires n <= |calls|
  {
    if n == 0 then 0
    else BodySleep(emulated, cfg, calls, n - 1) + CallSleep(emulated, cfg, LiveTo(emulated, cfg, calls, n - 1), calls[n - 1])
  }
}
