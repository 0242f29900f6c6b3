/** Collecting the results of a statement: libpq hands them out in whatever
    groups the socket makes ready; the caller gets one value. */
module ResultCollection {
  import opened Wrappers
  import opened RetryPolicy

  type Row = seq<string>
  type Cell = Option<string>  // None = SQL NULL

  /** One PGresult of the reply. */
  datatype PgResult =
    | Tuples(names: seq<string>, cells: seq<seq<Cell>>)
    | CommandDone(affected: nat)
    | CopyMode
    | ErrorResult(error: string, sqlstate: string, message: string)

  datatype QueryResult = QueryResult(
    ok: bool, code: Code, error: string, sqlstate: string, message: string,
    columns: seq<string>, rows: seq<Row>, rowsAffected: nat, rowsValid: bool)

  const STARTED := QueryResult(true, OK, "", "", "", [], [], 0, true)

  const COPY_REFUSED := QueryResult(false, ProtocolCorrupt, "COPY cannot run through a query API; use copy_*",
                                   "", "", [], [], 0, false)

  function ServerFailure(r: PgResult): QueryResult
    requires r.ErrorResult?
  {
    QueryResult(false, ServerError, r.error, r.sqlstate, r.message, [], [], 0, false)
  }

  function TextOf(cell: Cell): string { if cell.Some? then cell.value else "" }

  function RowOf(cells: seq<Cell>): Row { seq(|cells|, i requires 0 <= i < |cells| => TextOf(cells[i])) }

  function RowsOf(cells: seq<seq<Cell>>): seq<Row> { seq(|cells|, i requires 0 <= i < |cells| => RowOf(cells[i])) }

  /** append_rows: the cells row by row, and the column names unless there are some already. */
  method AppendRows(r: PgResult, rows: seq<Row>, columns: seq<string>) returns (rows': seq<Row>, columns': seq<string>)
    requires r.Tuples?
    ensures rows' == rows + RowsOf(r.cells)
    ensures forall i, j | 0 <= i < |r.cells| && 0 <= j < |r.cells[i]| ::
              |rows'[|rows| + i]| == |r.cells[i]|
              && rows'[|rows| + i][j] == if r.cells[i][j].Some? then r.cells[i][j].value else ""
    ensures columns' == if columns == [] then r.names else columns
  {
    columns' := if columns == [] then r.names else columns;
    rows' := rows;
    for i := 0 to |r.cells|
      invariant rows' == rows + RowsOf(r.cells)[..i]
    {
      var row: Row := [];
      for c := 0 to |r.cells[i]|
        invariant row == RowOf(r.cells[i])[..c]
      {
        assert RowOf(r.cells[i])[..c + 1] == RowOf(r.cells[i])[..c] + [RowOf(r.cells[i])[c]];
        row := row + [if r.cells[i][c].Some? then r.cells[i][c].value else ""];
      }
      assert row == RowOf(r.cells[i]);
      rows' := rows' + [row];
    }
  }

  /** Folds one result into what was gathered. */
  function Absorb(out: QueryResult, r: PgResult): QueryResult {
    match r
    case Tuples(names, cells) =>
      if !out.ok then out
      else out.(rows := out.rows + RowsOf(cells), columns := if out.columns == [] then names else out.columns,
                rowsAffected := out.rowsAffected + |cells|)
    case CommandDone(affected) => if !out.ok then out else out.(rowsAffected := out.rowsAffected + affected)
    case CopyMode => COPY_REFUSED
    case ErrorResult(_, _, _) => ServerFailure(r)
  }

  method AbsorbResult(out: QueryResult, r: PgResult) returns (out': QueryResult, stop: bool)
    ensures out' == Absorb(out, r) && stop == r.CopyMode?
  {
    out', stop := out, false;
    match r {
      case Tuples(names, cells) =>
        if out.ok {
          var rows, columns := AppendRows(r, out.rows, out.columns);
          out' := out.(rows := rows, columns := columns, rowsAffected := out.rowsAffected + |cells|);
        }
      case CommandDone(affected) =>
        if out.ok {
          out' := out.(rowsAffected := out.rowsAffected + affected);
        }
      case CopyMode =>
        out', stop := COPY_REFUSED, true;
      case ErrorResult(error, sqlstate, message) =>
        out' := ServerFailure(r);
    }
  }

  // ---------- the value of a reply ----------

  function Collected(out: QueryResult, rs: seq<PgResult>): QueryResult
    decreases |rs|
  {
    if rs == [] then out
    else if rs[0].CopyMode? then COPY_REFUSED
    else Collected(Absorb(out, rs[0]), rs[1..])
  }

  predicate HasCopy(rs: seq<PgResult>) { exists i | 0 <= i < |rs| :: rs[i].CopyMode? }

  predicate HasError(rs: seq<PgResult>) { exists i | 0 <= i < |rs| :: rs[i].ErrorResult? }

  function AllRows(rs: seq<PgResult>): seq<Row> {
    if rs == [] then [] else (if rs[0].Tuples? then RowsOf(rs[0].cells) else []) + AllRows(rs[1..])
  }

  function AllAffected(rs: seq<PgResult>): nat {
    if rs == [] then 0
    else (match rs[0] case Tuples(_, cells) => |cells| case CommandDone(n) => n case _ => 0) + AllAffected(rs[1..])
  }

  /** The names of the first row set that has any. */
  function FirstNames(rs: seq<PgResult>): seq<string> {
    if rs == [] then []
    else if rs[0].Tuples? && rs[0].names != [] then rs[0].names
    else FirstNames(rs[1..])
  }

  /** `out` with the rows, the counts and the first names of `rs` added. */
  function Grown(out: QueryResult, rs: seq<PgResult>): QueryResult {
    out.(rows := out.rows + AllRows(rs), rowsAffected := out.rowsAffected + AllAffected(rs),
         columns := if out.columns == [] then FirstNames(rs) else out.columns)
  }

  lemma GrownStep(out: QueryResult, rs: seq<PgResult>)
    requires out.ok && rs != [] && !rs[0].CopyMode? && !rs[0].ErrorResult?
    ensures Grown(Absorb(out, rs[0]), rs[1..]) == Grown(out, rs)
  {
    var added := if rs[0].Tuples? then RowsOf(rs[0].cells) else [];
    assert AllRows(rs) == added + AllRows(rs[1..]);
    assert out.rows + added + AllRows(rs[1..]) == out.rows + AllRows(rs);
    assert Absorb(out, rs[0]).rows == out.rows + added;
  }

  lemma {:induction false} CollectedWithoutError(out: QueryResult, rs: seq<PgResult>)
    requires out.ok && !HasCopy(rs) && !HasError(rs)
    ensures Collected(out, rs) == Grown(out, rs)
    decreases |rs|
  {
    if rs == [] {
      assert out.rows + [] == out.rows;
    } else {
      Tail(rs);
      CollectedWithoutError(Absorb(out, rs[0]), rs[1..]);
      GrownStep(out, rs);
    }
  }

  lemma Tail(rs: seq<PgResult>)
    requires rs != []
    ensures HasCopy(rs) <==> rs[0].CopyMode? || HasCopy(rs[1..])
    ensures HasError(rs) <==> rs[0].ErrorResult? || HasError(rs[1..])
  {
    if HasCopy(rs) && !rs[0].CopyMode? {
      var i :| 0 <= i < |rs| && rs[i].CopyMode?;
      assert rs[1..][i - 1] == rs[i];
    }
    if HasError(rs) && !rs[0].ErrorResult? {
      var i :| 0 <= i < |rs| && rs[i].ErrorResult?;
      assert rs[1..][i - 1] == rs[i];
    }
  }

  function LastError(rs: seq<PgResult>): PgResult
    requires HasError(rs)
    ensures LastError(rs).ErrorResult?
  {
    Tail(rs);
    if HasError(rs[1..]) then LastError(rs[1..]) else rs[0]
  }

  lemma {:induction false} LastErrorIsLast(rs: seq<PgResult>) returns (i: nat)
    requires HasError(rs)
    ensures i < |rs| && rs[i] == LastError(rs) && forall j | i < j < |rs| :: !rs[j].ErrorResult?
    decreases |rs|
  {
    Tail(rs);
    if HasError(rs[1..]) {
      i := LastErrorIsLast(rs[1..]);
      forall j | i + 1 < j < |rs| ensures !rs[j].ErrorResult? { assert rs[1..][j - 1] == rs[j]; }
      i := i + 1;
    } else {
      i := 0;
      forall j | 0 < j < |rs| ensures !rs[j].ErrorResult? { assert rs[1..][j - 1] == rs[j]; }
    }
  }

  lemma {:induction false} CollectedAfterFailure(out: QueryResult, rs: seq<PgResult>)
    requires !out.ok && !HasCopy(rs)
    ensures Collected(out, rs) == if HasError(rs) then ServerFailure(LastError(rs)) else out
    decreases |rs|
  {
    if rs != [] {
      Tail(rs);
      CollectedAfterFailure(Absorb(out, rs[0]), rs[1..]);
    }
  }

  lemma {:induction false} CollectedWithError(out: QueryResult, rs: seq<PgResult>)
    requires HasError(rs) && !HasCopy(rs)
    ensures Collected(out, rs) == ServerFailure(LastError(rs))
    decreases |rs|
  {
    Tail(rs);
    if rs[0].ErrorResult? {
      CollectedAfterFailure(ServerFailure(rs[0]), rs[1..]);
    } else {
      CollectedWithError(Absorb(out, rs[0]), rs[1..]);
    }
  }

  lemma {:induction false} CollectedWithCopy(out: QueryResult, rs: seq<PgResult>)
    requires HasCopy(rs)
    ensures Collected(out, rs) == COPY_REFUSED
    decreases |rs|
  {
    Tail(rs);
    if !rs[0].CopyMode? { CollectedWithCopy(Absorb(out, rs[0]), rs[1..]); }
  }

  /** The value of a statement's reply: all rows in order, the first column names
      and the summed counts when nothing failed; only the last error otherwise. */
  lemma ReplyValue(rs: seq<PgResult>)
    ensures HasCopy(rs) ==> Collected(STARTED, rs) == COPY_REFUSED
    ensures !HasCopy(rs) && HasError(rs) ==> Collected(STARTED, rs) == ServerFailure(LastError(rs))
    ensures !HasCopy(rs) && !HasError(rs) ==>
              Collected(STARTED, rs) == STARTED.(rows := AllRows(rs), columns := FirstNames(rs), rowsAffected := AllAffected(rs))
  {
    if HasCopy(rs) { CollectedWithCopy(STARTED, rs); }
    else if HasError(rs) { CollectedWithError(STARTED, rs); }
    else {
      CollectedWithoutError(STARTED, rs);
      assert [] + AllRows(rs) == AllRows(rs);
    }
  }

  lemma {:induction false} CollectedConcat(out: QueryResult, a: seq<PgResult>, b: seq<PgResult>)
    ensures Collected(out, a + b) == if HasCopy(a) then COPY_REFUSED else Collected(Collected(out, a), b)
    decreases |a|
  {
    if a == [] {
      assert a + b == b;
    } else {
      Tail(a);
      assert (a + b)[1..] == a[1..] + b;
      if !a[0].CopyMode? { CollectedConcat(Absorb(out, a[0]), a[1..], b); }
    }
  }

  lemma HasCopyConcat(a: seq<PgResult>, b: seq<PgResult>)
    ensures HasCopy(a + b) <==> HasCopy(a) || HasCopy(b)
  {
    if HasCopy(a) {
      var i :| 0 <= i < |a| && a[i].CopyMode?;
      assert (a + b)[i] == a[i];
    }
    if HasCopy(b) {
      var i :| 0 <= i < |b| && b[i].CopyMode?;
      assert (a + b)[|a| + i] == b[i];
    }
  }

  // ---------- readiness ----------

  /** One call of collect_step and the wait after it: does reading the socket
      succeed, which results are ready, is the reply over, and did the wait end
      in a timeout or a cancellation. */
  datatype Turn = Turn(input: bool, ready: seq<PgResult>, ended: bool, timedOut: bool, canceled: bool)

  datatype Step = Done | Wait | Failed

  function StepOf(t: Turn): Step {
    if !t.input then Failed else if HasCopy(t.ready) || t.ended then Done else Wait
  }

  datatype Ending = Clean | IoFailure | Canceled | Unfinished

  /** How the reading ends. */
  function EndingOf(turns: seq<Turn>): Ending {
    if turns == [] then Unfinished
    else if StepOf(turns[0]) == Done then Clean
    else if StepOf(turns[0]) == Failed || turns[0].timedOut then IoFailure
    else if turns[0].canceled then Canceled
    else EndingOf(turns[1..])
  }

  /** Every result handed out before the reading ends, whatever the grouping. */
  function Delivered(turns: seq<Turn>): seq<PgResult> {
    if turns == [] || !turns[0].input then []
    else if StepOf(turns[0]) == Done || turns[0].timedOut || turns[0].canceled then turns[0].ready
    else turns[0].ready + Delivered(turns[1..])
  }

  const CLOSED := QueryResult(false, ConnectionClosed, "connection not OK", "", "", [], [], 0, false)

  function FailIo(out: QueryResult, code: Code, msg: string): QueryResult {
    out.(ok := false, code := code, error := msg, message := msg)
  }

  function Cleared(out: QueryResult): QueryResult {
    out.(rows := [], columns := [], rowsValid := false)
  }

  /** fail_io, and the cleanup run_query does after it. */
  function Abandoned(out: QueryResult, code: Code, msg: string): QueryResult { Cleared(FailIo(out, code, msg)) }

  /** One call of flush_step that did not finish the send, and the wait after it. */
  datatype Flush = Flush(failed: bool, timedOut: bool, canceled: bool)

  /** How the sending ends when its last flush_step says Done. */
  function FlushEnding(flushes: seq<Flush>): Ending {
    if flushes == [] then Clean
    else if flushes[0].failed || flushes[0].timedOut then IoFailure
    else if flushes[0].canceled then Canceled
    else FlushEnding(flushes[1..])
  }

  /** What a failed or a finished exchange leaves. */
  function Concluded(value: QueryResult, ending: Ending, ioError: string): QueryResult {
    match ending
    case IoFailure => Abandoned(value, SocketReadFailed, ioError)
    case Canceled => Abandoned(value, AwaitCanceled, "canceled")
    case _ => value
  }

  // ---------- when the reading ends ----------

  /** Nothing in this turn ends the reading. */
  predicate GoesOn(t: Turn) { t.input && !HasCopy(t.ready) && !t.ended && !t.timedOut && !t.canceled }

  /** The results of the first n turns. */
  function ReadyTo(turns: seq<Turn>, n: nat): seq<PgResult>
    requires n <= |turns|
  {
    if n == 0 then [] else ReadyTo(turns, n - 1) + turns[n - 1].ready
  }

  lemma {:induction false} ReadyShift(turns: seq<Turn>, n: nat)
    requires 0 < n <= |turns|
    ensures ReadyTo(turns, n) == turns[0].ready + ReadyTo(turns[1..], n - 1)
    decreases n
  {
    if n > 1 {
      ReadyShift(turns, n - 1);
      assert turns[1..][n - 2] == turns[n - 1];
      assert turns[0].ready + ReadyTo(turns[1..], n - 2) + turns[n - 1].ready
          == turns[0].ready + (ReadyTo(turns[1..], n - 2) + turns[n - 1].ready);
    } else {
      assert [] + turns[0].ready == turns[0].ready + [];
    }
  }

  /** The first turn that does not go on decides how the reading ends, and everything handed
      out up to it has been delivered. */
  lemma {:induction false} FirstEndDecides(turns: seq<Turn>, k: nat)
    requires k < |turns| && !GoesOn(turns[k]) && forall j | 0 <= j < k :: GoesOn(turns[j])
    ensures EndingOf(turns) == if !turns[k].input then IoFailure
                               else if HasCopy(turns[k].ready) || turns[k].ended then Clean
                               else if turns[k].timedOut then IoFailure
                               else Canceled
    ensures Delivered(turns) == if turns[k].input then ReadyTo(turns, k + 1) else ReadyTo(turns, k)
    decreases k
  {
    if k > 0 {
      assert GoesOn(turns[0]) && turns[1..][k - 1] == turns[k];
      forall j | 0 <= j < k - 1 ensures GoesOn(turns[1..][j]) { assert turns[1..][j] == turns[j + 1]; }
      FirstEndDecides(turns[1..], k - 1);
      ReadyShift(turns, k);
      ReadyShift(turns, k + 1);
    } else {
      assert [] + turns[0].ready == turns[0].ready;
    }
  }

  /** The first flush that fails, times out or is canceled decides how the sending ends. */
  lemma {:induction false} FirstFlushDecides(flushes: seq<Flush>, k: nat)
    requires k <= |flushes| && forall j | 0 <= j < k :: !flushes[j].failed && !flushes[j].timedOut && !flushes[j].canceled
    ensures k == |flushes| ==> FlushEnding(flushes) == Clean
    ensures k < |flushes| && (flushes[k].failed || flushes[k].timedOut) ==> FlushEnding(flushes) == IoFailure
    ensures k < |flushes| && !flushes[k].failed && !flushes[k].timedOut && flushes[k].canceled ==> FlushEnding(flushes) == Canceled
    decreases k
  {
    if k > 0 {
      forall j | 0 <= j < k - 1 ensures flushes[1..][j] == flushes[j + 1] { }
      FirstFlushDecides(flushes[1..], k - 1);
    }
  }

  // ---------- what the caller reads ----------

  /** A failed exchange: the code says how it failed, and both texts say why. */
  predicate FailedWith(q: QueryResult, code: Code, text: string) {
    !q.ok && q.code == code && q.error == text && q.message == text && q.rows == [] && q.columns == [] && !q.rowsValid
  }

  /** A finished exchange: everything the server sent, or its last error, or the refusal of COPY. */
  ghost predicate FinishedWith(q: QueryResult, rs: seq<PgResult>) {
    if HasCopy(rs) then !q.ok && q.code == ProtocolCorrupt && q.rows == [] && !q.rowsValid
    else if HasError(rs) then
      var e := LastError(rs);
      && !q.ok && q.code == ServerError && q.error == e.error && q.sqlstate == e.sqlstate && q.message == e.message
      && q.rows == [] && !q.rowsValid
    else
      && q.ok && q.code == OK && q.error == "" && q.sqlstate == "" && q.rowsValid
      && q.rows == AllRows(rs) && q.columns == FirstNames(rs) && q.rowsAffected == AllAffected(rs)
  }

  lemma ConcludedReads(rs: seq<PgResult>, ending: Ending, ioError: string)
    ensures var q := Concluded(Collected(STARTED, rs), ending, ioError);
            && (ending == IoFailure ==> FailedWith(q, SocketReadFailed, ioError))
            && (ending == Canceled ==> FailedWith(q, AwaitCanceled, "canceled"))
            && (ending == Clean ==> FinishedWith(q, rs))
  {
    ReplyValue(rs);
  }

  // ---------- an error followed by the loss of the connection ----------

  /** What the retry policy is shown of a failed result. */
  function FailureOf(q: QueryResult): Failure { Failure(q.code, q.error, q.sqlstate, q.message) }

  /** The SQLSTATE of a lost exchange is that of the last error read before the
      loss, and empty only when there was none. */
  lemma StateOfLostExchange(rs: seq<PgResult>, msg: string)
    requires !HasCopy(rs)
    ensures Abandoned(Collected(STARTED, rs), SocketReadFailed, msg).sqlstate
         == if HasError(rs) then LastError(rs).sqlstate else ""
  {
    ReplyValue(rs);
  }

  /** So a lost connection is classed as lost exactly when no error was read
      before the loss, or the state of the last one says nothing else. */
  lemma LossIsClassedLostIff(rs: seq<PgResult>, msg: string)
    requires !HasCopy(rs) && !("io deadline exceeded" <= msg)
    ensures Classify(FailureOf(Abandoned(Collected(STARTED, rs), SocketReadFailed, msg)), false) == ConnectionLost
            <==> !HasError(rs) || ClassifySqlState(LastError(rs).sqlstate) in {NoRetry, ConnectionLost}
  {
    StateOfLostExchange(rs, msg);
  }

  /** An exchange cut off at its deadline is classed as that, and not as lost, exactly when
      the state of the last error read before says nothing else. */
  lemma DeadlineIsClassedDeadlineIff(rs: seq<PgResult>, msg: string)
    requires !HasCopy(rs) && "io deadline exceeded" <= msg
    ensures Classify(FailureOf(Abandoned(Collected(STARTED, rs), SocketReadFailed, msg)), false) == Deadline
            <==> !HasError(rs) || ClassifySqlState(LastError(rs).sqlstate) == NoRetry
  {
    StateOfLostExchange(rs, msg);
    ConcludedReads(rs, IoFailure, msg);
  }

  /** A run in which it is not: a deadlock is reported, the connection dies before
      the reply ends, and the loss is classed as a rolled-back statement. */
  lemma DeadlockHidesTheLoss(message: string)
    ensures var error := ErrorResult("deadlock detected", "40P01", message);
            var turns := [Turn(true, [error], false, false, false), Turn(false, [], false, false, false)];
            var out := Concluded(Collected(STARTED, Delivered(turns)), EndingOf(turns), "server closed the connection");
            && EndingOf(turns) == IoFailure && Delivered(turns) == [error]
            && out.code == SocketReadFailed && out.sqlstate == "40P01"
            && Classify(FailureOf(out), false) == RolledBack
  {
    var error := ErrorResult("deadlock detected", "40P01", message);
    var turns := [Turn(true, [error], false, false, false), Turn(false, [], false, false, false)];
    assert turns[1..] == [turns[1]];
    assert EndingOf(turns) == EndingOf([turns[1]]) && Delivered(turns) == [error] + Delivered([turns[1]]);
    assert [error] + [] == [error];
    Tail([error]);
    StateOfLostExchange([error], "server closed the connection");
  }

  class Connection {
    var connected: bool

    constructor ()
      ensures connected
    {
      connected := true;
    }

    /** collect_step: reads and folds every ready result. */
    method CollectStep(out: QueryResult, t: Turn) returns (out': QueryResult, step: Step)
      modifies this
      ensures step == StepOf(t)
      ensures out' == if t.input then Collected(out, t.ready) else out
      ensures connected == (old(connected) && t.input && !HasCopy(t.ready))
    {
      out' := out;
      if !t.input {
        connected := false;
        return out', Failed;
      }
      var k := 0;
      while k < |t.ready|
        invariant 0 <= k <= |t.ready| && !HasCopy(t.ready[..k]) && connected == old(connected)
        invariant out' == Collected(out, t.ready[..k])
      {
        assert t.ready[..k + 1] == t.ready[..k] + [t.ready[k]];
        CollectedConcat(out, t.ready[..k], [t.ready[k]]);
        assert [t.ready[k]][1..] == [];
        var stop;
        out', stop := AbsorbResult(out', t.ready[k]);
        if stop {
          CollectedWithCopy(out, t.ready);
          connected := false;
          return out', Done;
        }
        k := k + 1;
      }
      assert t.ready[..k] == t.ready;
      step := if t.ended then Done else Wait;
    }

    /** after_wait: true means giving up, and the connection is not usable afterwards. */
    method AfterWait(step: Step, timedOut: bool, canceled: bool, out: QueryResult, ioError: string)
      returns (giveUp: bool, out': QueryResult)
      requires step != Done
      modifies this
      ensures giveUp <==> step == Failed || timedOut || canceled
      ensures out' == if step == Failed || timedOut then FailIo(out, SocketReadFailed, ioError)
                      else if canceled then FailIo(out, AwaitCanceled, "canceled")
                      else out
      ensures step == Failed || timedOut ==>
                !out'.ok && out'.code == SocketReadFailed && out'.error == ioError && out'.message == ioError
      ensures step != Failed && !timedOut && canceled ==>
                !out'.ok && out'.code == AwaitCanceled && out'.error == "canceled" && out'.message == "canceled"
      ensures connected == (old(connected) && !giveUp)
    {
      giveUp, out' := false, out;
      if step == Failed || timedOut {
        out', connected := FailIo(out, SocketReadFailed, ioError), false;
        giveUp := true;
      } else if step == Wait && canceled {
        out', connected := FailIo(out, AwaitCanceled, "canceled"), false;
        giveUp := true;
      }
    }

    method FlushAll(flushes: seq<Flush>, ioError: string) returns (failed: bool, out: QueryResult)
      modifies this
      ensures failed <==> FlushEnding(flushes) != Clean
      ensures failed ==> Cleared(out) == Concluded(STARTED, FlushEnding(flushes), ioError)
      ensures !failed ==> out == STARTED
      ensures connected == (old(connected) && !failed)
    {
      failed, out := false, STARTED;
      var k := 0;
      while !failed && k < |flushes|
        invariant 0 <= k <= |flushes|
        invariant !failed ==> out == STARTED && FlushEnding(flushes[k..]) == FlushEnding(flushes)
        invariant failed ==> FlushEnding(flushes) != Clean && Cleared(out) == Concluded(STARTED, FlushEnding(flushes), ioError)
        invariant connected == (old(connected) && !failed)
      {
        var f := flushes[k];
        assert flushes[k..][0] == f && flushes[k..][1..] == flushes[k + 1..];
        failed, out := AfterWait(if f.failed then Failed else Wait, f.timedOut, f.canceled, out, ioError);
        k := k + 1;
      }
    }

    method CollectAll(turns: seq<Turn>, ioError: string) returns (failed: bool, out: QueryResult)
      requires !EndingOf(turns).Unfinished?
      modifies this
      ensures failed <==> EndingOf(turns) != Clean
      ensures var value := Collected(STARTED, Delivered(turns));
              (if failed then Cleared(out) else out) == Concluded(value, EndingOf(turns), ioError)
      ensures connected == (old(connected) && EndingOf(turns) == Clean && !HasCopy(Delivered(turns)))
    {
      failed, out := false, STARTED;
      var k := 0;
      while true
        invariant 0 <= k <= |turns| && !EndingOf(turns[k..]).Unfinished?
        invariant !failed && connected == old(connected)
        invariant EndingOf(turns[k..]) == EndingOf(turns)
        invariant Collected(out, Delivered(turns[k..])) == Collected(STARTED, Delivered(turns))
        invariant HasCopy(Delivered(turns[k..])) == HasCopy(Delivered(turns))
        decreases |turns| - k
      {
        var t := turns[k];
        assert turns[k..][0] == t && turns[k..][1..] == turns[k + 1..];
        ghost var before := out;
        var step;
        out, step := CollectStep(out, t);
        if step == Done {
          return;
        }
        failed, out := AfterWait(step, t.timedOut, t.canceled, out, ioError);
        if failed {
          return;
        }
        CollectedConcat(before, t.ready, Delivered(turns[k + 1..]));
        HasCopyConcat(t.ready, Delivered(turns[k + 1..]));
        k := k + 1;
      }
    }

    /** run_query: the answer depends on the results and on how the exchange
        ended, not on how readiness grouped them. An exchange that did not end
        cleanly leaves no rows and no usable connection. */
    method RunQuery(sent: bool, flushes: seq<Flush>, turns: seq<Turn>, ioError: string) returns (out: QueryResult)
      requires !EndingOf(turns).Unfinished?
      modifies this
      ensures !old(connected) ==> out == CLOSED && !connected
      ensures old(connected) ==>
                var ending := if !sent then IoFailure else if FlushEnding(flushes) != Clean then FlushEnding(flushes) else EndingOf(turns);
                var value := if !sent || FlushEnding(flushes) != Clean then STARTED else Collected(STARTED, Delivered(turns));
                && out == Concluded(value, ending, ioError)
                && (ending != Clean ==> !out.ok && out.rows == [] && out.columns == [] && !out.rowsValid && !connected)
                && (ending == Clean ==> connected == !HasCopy(Delivered(turns)))
                && (ending == IoFailure ==> FailedWith(out, SocketReadFailed, ioError))
                && (ending == Canceled ==> FailedWith(out, AwaitCanceled, "canceled"))
                && (ending == Clean ==> FinishedWith(out, Delivered(turns)))
      ensures !old(connected) ==> !out.ok && out.code == ConnectionClosed && out.error == "connection not OK" && out.rows == []
    {
      ConcludedReads(Delivered(turns), EndingOf(turns), ioError);
      ConcludedReads([], IoFailure, ioError);
      ConcludedReads([], Canceled, ioError);
      if !connected {
        return CLOSED;
      }
      var failed := !sent;
      if failed {
        out, connected := FailIo(STARTED, SocketReadFailed, ioError), false;
      } else {
        failed, out := FlushAll(flushes, ioError);
        if !failed {
          failed, out := CollectAll(turns, ioError);
        }
      }
      if failed {
        out := Cleared(out);
      }
    }
  }
}
