/** The cursor-backed row stream: rows come from the server in batches, callers
    take them one at a time. */
module RowStream {
  import opened Wrappers
  import opened RetryPolicy
  import opened Sequences

  datatype OpError = OpError(code: Code, error: string, sqlstate: string)

  /** What happened to the pooled connection of a stream. */
  datatype Disposal = Released | MarkedDead

  function Min(a: nat, b: nat): nat { if a < b then a else b }

  /** Faults(k) is the error of the k-th FETCH sent to this server, if it fails. */
  type Faults = nat -> Option<OpError>

  /** The rows a cursor still gives: batch by batch until a FETCH fails or comes back empty. */
  ghost function FromCursor<T>(cursor: seq<T>, batch: nat, faults: Faults, k: nat): seq<T>
    requires batch > 0
    decreases |cursor|
  {
    if faults(k).Some? || cursor == [] then []
    else
      var n := Min(batch, |cursor|);
      cursor[..n] + FromCursor(cursor[n..], batch, faults, k + 1)
  }

  ghost predicate NoFaultFrom(faults: Faults, k: nat) { forall j: nat | k <= j :: faults(j).None? }

  /** Without a failing FETCH the batch size does not matter: every row, in order. */
  lemma {:induction false} BatchesDoNotMatter<T>(cursor: seq<T>, batch: nat, faults: Faults, k: nat)
    requires batch > 0 && NoFaultFrom(faults, k)
    ensures FromCursor(cursor, batch, faults, k) == cursor
    decreases |cursor|
  {
    if cursor != [] {
      var n := Min(batch, |cursor|);
      BatchesDoNotMatter(cursor[n..], batch, faults, k + 1);
      assert cursor[..n] + cursor[n..] == cursor;
    }
  }

  /** A failing FETCH only cuts the rows short. */
  lemma {:induction false} FaultsOnlyCut<T>(cursor: seq<T>, batch: nat, faults: Faults, k: nat)
    requires batch > 0
    ensures FromCursor(cursor, batch, faults, k) <= cursor
    decreases |cursor|
  {
    if faults(k).None? && cursor != [] {
      var n := Min(batch, |cursor|);
      FaultsOnlyCut(cursor[n..], batch, faults, k + 1);
      assert cursor[..n] + cursor[n..] == cursor;
    }
  }

  // ---------- the stream on values ----------

  /** The server behind a stream: which FETCHes fail, and the column names of the cursor. */
  datatype Server = Server(faults: Faults, names: seq<string>)

  /** `cursor`: the rows still at the server. `left`: rows fetched and not handed out yet. */
  datatype State<T> = State(
    cursor: seq<T>, fetches: nat, batch: nat, active: bool, exhausted: bool, left: seq<T>,
    err: Option<OpError>, columns: seq<string>)

  datatype Given<T> = Given(row: Option<T>, state: State<T>)

  function Fetched<T>(s: State<T>, server: Server): State<T> {
    if !s.active || s.exhausted then s
    else
      var fault := server.faults(s.fetches);
      if fault.Some? then s.(fetches := s.fetches + 1, err := fault, exhausted := true)
      else
        var n := Min(s.batch, |s.cursor|);
        s.(fetches := s.fetches + 1, cursor := s.cursor[n..], left := s.cursor[..n], exhausted := n == 0,
           columns := if s.columns == [] then server.names else s.columns)
  }

  function Pop<T>(s: State<T>): Given<T> {
    if s.active && s.left != [] then Given(Some(s.left[0]), s.(left := s.left[1..])) else Given(None, s)
  }

  function NextOf<T>(s: State<T>, server: Server): Given<T> {
    Pop(if s.active && s.left != [] then s else Fetched(s, server))
  }

  /** The rows next() is still going to give. */
  ghost function Future<T>(s: State<T>, server: Server): seq<T>
    requires s.batch > 0
  {
    if !s.active then []
    else if s.exhausted then s.left
    else s.left + FromCursor(s.cursor, s.batch, server.faults, s.fetches)
  }

  /** The rows not handed out yet, whether buffered or still at the server. */
  function Unread<T>(s: State<T>): seq<T> { s.left + s.cursor }

  lemma FetchKeepsRows<T>(s: State<T>, server: Server)
    requires s.batch > 0 && (s.active ==> s.left == [])
    ensures var t := Fetched(s, server);
            && t.batch == s.batch && Future(t, server) == Future(s, server) && Unread(t) == Unread(s)
  {
    if s.active && !s.exhausted && server.faults(s.fetches).None? {
      var n := Min(s.batch, |s.cursor|);
      assert s.left + s.cursor == s.cursor == s.cursor[..n] + s.cursor[n..];
      var rest := FromCursor(s.cursor, s.batch, server.faults, s.fetches);
      assert s.left + rest == rest;
      if s.cursor == [] {
        assert Fetched(s, server).left == [];
      }
    }
  }

  /** What one FETCH brings: as many rows as the batch size asks for, or all that are left, and
      the end when that is none; or the server's own error, and nothing more. */
  lemma FetchBrings<T>(s: State<T>, server: Server)
    requires s.active && !s.exhausted
    ensures var t := Fetched(s, server);
            && t.fetches == s.fetches + 1
            && (server.faults(s.fetches).Some? ==> t.err == server.faults(s.fetches) && t.exhausted && t.cursor == s.cursor)
            && (server.faults(s.fetches).None? ==>
                  && t.left + t.cursor == s.cursor && t.err == s.err
                  && |t.left| == (if s.batch <= |s.cursor| then s.batch else |s.cursor|)
                  && (t.exhausted <==> t.left == [])
                  && (s.columns == [] ==> t.columns == server.names) && (s.columns != [] ==> t.columns == s.columns))
  {
  }

  /** `g` is one step through the rows of `s`: the first of them, or the end. */
  ghost predicate Yields<T>(s: State<T>, g: Given<T>, server: Server)
    requires s.batch > 0
  {
    && g.state.batch == s.batch
    && match g.row
       case Some(v) => Future(s, server) == [v] + Future(g.state, server) && Unread(s) == [v] + Unread(g.state)
       case None => Future(s, server) == [] && Future(g.state, server) == [] && Unread(g.state) == Unread(s)
  }

  lemma PopYields<T>(s: State<T>, server: Server)
    requires s.batch > 0 && s.active && s.left != []
    ensures Yields(s, Pop(s), server)
  {
    var v := s.left[0];
    assert s.left + s.cursor == [v] + (s.left[1..] + s.cursor);
    if s.exhausted {
      assert s.left == [v] + s.left[1..];
    } else {
      var rest := FromCursor(s.cursor, s.batch, server.faults, s.fetches);
      assert s.left + rest == [v] + (s.left[1..] + rest);
    }
  }

  /** Each row once and in order; then nothing, and nothing from then on. */
  lemma NextYields<T>(s: State<T>, server: Server)
    requires s.batch > 0
    ensures Yields(s, NextOf(s, server), server)
  {
    if s.active && s.left != [] {
      PopYields(s, server);
    } else {
      FetchKeepsRows(s, server);
      var t := Fetched(s, server);
      if t.active && t.left != [] {
        PopYields(t, server);
      } else {
        FetchedEmpty(s, server);
      }
    }
  }

  lemma FetchedEmpty<T>(s: State<T>, server: Server)
    requires s.batch > 0 && (s.active ==> s.left == [] && Fetched(s, server).left == [])
    ensures Future(Fetched(s, server), server) == []
  {
  }

  /** Rows are withheld from an open stream only when a FETCH failed, and then the error is kept. */
  ghost predicate Explained<T>(s: State<T>) {
    s.active && s.exhausted && Unread(s) != [] ==> s.err.Some?
  }

  lemma NextKeepsExplained<T>(s: State<T>, server: Server)
    requires s.batch > 0 && Explained(s)
    ensures Explained(NextOf(s, server).state)
    ensures var g := NextOf(s, server);
            g.row.None? && s.active && Unread(s) != [] ==> g.state.err.Some?
  {
    NextYields(s, server);
  }

  /** What an open stream will give is what was not handed out, cut short only by a failing FETCH. */
  lemma FutureIsUnread<T>(s: State<T>, server: Server)
    requires s.batch > 0 && s.active && !s.exhausted
    ensures Future(s, server) <= Unread(s)
    ensures NoFaultFrom(server.faults, s.fetches) ==> Future(s, server) == Unread(s)
  {
    FaultsOnlyCut(s.cursor, s.batch, server.faults, s.fetches);
    if NoFaultFrom(server.faults, s.fetches) {
      BatchesDoNotMatter(s.cursor, s.batch, server.faults, s.fetches);
    }
  }

  // ---------- reading to the end ----------

  datatype Call =
    | CallNext | CallSetBatch(n: nat) | CallClose(connected: bool, closed: Option<OpError>, committed: Option<OpError>)
    | CallDestroy

  predicate OnlyReads(calls: seq<Call>) { forall i | 0 <= i < |calls| :: calls[i].CallNext? || calls[i].CallSetBatch? }

  /** How many of the first `n` calls are next(). */
  function NextCalls(calls: seq<Call>, n: nat): nat
    requires n <= |calls|
  {
    if n == 0 then 0 else NextCalls(calls, n - 1) + (if calls[n - 1].CallNext? then 1 else 0)
  }

  function Resized<T>(s: State<T>, n: nat): State<T> { s.(batch := if n == 0 then 1 else n) }

  /** The stream after the first `n` calls of a reader, and the rows it was given. */
  function ReadTo<T>(s: State<T>, server: Server, calls: seq<Call>, n: nat): (seq<T>, State<T>)
    requires n <= |calls| && OnlyReads(calls)
    decreases n
  {
    if n == 0 then ([], s)
    else
      var (given, t) := ReadTo(s, server, calls, n - 1);
      match calls[n - 1]
      case CallNext => var g := NextOf(t, server); (given + (if g.row.Some? then [g.row.value] else []), g.state)
      case CallSetBatch(m) => (given, Resized(t, m))
  }

  /** An open stream whose FETCHes will succeed, and which has not stopped early. */
  ghost predicate Flowing<T>(s: State<T>, server: Server) {
    s.batch > 0 && s.active && NoFaultFrom(server.faults, s.fetches) && (s.exhausted ==> Unread(s) == [])
  }

  /** A flowing stream gives a row exactly when one is left, and keeps flowing. */
  lemma NextFlows<T>(s: State<T>, server: Server)
    requires Flowing(s, server)
    ensures var g := NextOf(s, server);
            Flowing(g.state, server) && (g.row.Some? <==> Unread(s) != [])
    ensures var g := NextOf(s, server);
            Unread(s) == (if g.row.Some? then [g.row.value] else []) + Unread(g.state)
  {
    NextYields(s, server);
    if !s.exhausted { FutureIsUnread(s, server); }
  }

  /** Whatever the batch sizes and however they change midway, every row comes out
      once and in order, one for each next(), and then none. */
  lemma {:induction false} EveryRowComesOut<T>(s: State<T>, server: Server, calls: seq<Call>, n: nat)
    requires Flowing(s, server) && OnlyReads(calls) && n <= |calls|
    ensures var (given, t) := ReadTo(s, server, calls, n);
            && Flowing(t, server) && Unread(s) == given + Unread(t)
            && |given| == Min(NextCalls(calls, n), |Unread(s)|)
    decreases n
  {
    if n > 0 {
      EveryRowComesOut(s, server, calls, n - 1);
      var (given, t) := ReadTo(s, server, calls, n - 1);
      if calls[n - 1].CallNext? {
        NextFlows(t, server);
        var g := NextOf(t, server);
        if g.row.Some? { Assoc(given, [g.row.value], Unread(g.state)); }
      }
    }
  }

  /** The rows given are the first ones, as many as next() was called or as there are. */
  lemma ReadsAPrefix<T>(s: State<T>, server: Server, calls: seq<Call>)
    requires Flowing(s, server) && OnlyReads(calls)
    ensures ReadTo(s, server, calls, |calls|).0 == Unread(s)[..Min(NextCalls(calls, |calls|), |Unread(s)|)]
  {
    EveryRowComesOut(s, server, calls, |calls|);
  }

  // ---------- the object ----------

  /** The server's end of a stream: the rows its cursor still holds and the FETCHes it has answered. */
  datatype Remote<T> = Remote(cursor: seq<T>, fetches: nat, server: Server)

  class PgRowStream<T> {
    var remote: Remote<T>
    var pooled: bool
    var conn: bool
    var ownsTx: bool
    var batchSize: nat
    var active: bool
    var exhausted: bool
    var buf: seq<T>
    var bufIdx: nat
    var err: Option<OpError>
    var columns: seq<string>

    // Pooled connections this stream came to hold, and what became of them.
    ghost var leased: int
    var disposals: seq<Disposal>

    ghost predicate Valid()
      reads this
    {
      && bufIdx <= |buf| && batchSize > 0
      && (active ==> conn)
      && (pooled && !active ==> !conn)
      // every pooled connection is still held or was given back, never both
      && leased == |disposals| + (if pooled && active then 1 else 0)
    }

    ghost function View(): State<T>
      requires Valid()
      reads this
    {
      State(remote.cursor, remote.fetches, batchSize, active, exhausted, buf[bufIdx..], err, columns)
    }

    constructor (rows: seq<T>, server: Server, batch: nat, owning: bool)
      ensures Valid() && pooled == owning && ownsTx == owning && remote.server == server
      ensures View() == State(rows, 0, if batch == 0 then 1 else batch, true, false, [], None, [])
      ensures disposals == [] && leased == (if owning then 1 else 0)
    {
      remote := Remote(rows, 0, server);
      pooled, ownsTx, conn := owning, owning, true;
      batchSize := if batch != 0 then batch else 1;
      active, exhausted, buf, bufIdx, err, columns := true, false, [], 0, None, [];
      leased, disposals := if owning then 1 else 0, [];
    }

    method SetBatchSize(n: nat)
      requires Valid()
      modifies this`batchSize
      ensures Valid() && View() == Resized(old(View()), n) && batchSize == if n == 0 then 1 else n
    {
      batchSize := if n != 0 then n else 1;
    }

    /** Asks the server for one more batch. */
    method Fetch() returns (more: bool)
      requires Valid() && !(active && bufIdx < |buf|)
      modifies this`remote, this`buf, this`bufIdx, this`exhausted, this`err, this`columns
      ensures Valid() && View() == Fetched(old(View()), remote.server) && remote.server == old(remote.server)
      ensures more <==> active && bufIdx < |buf|
    {
      if !active || exhausted {
        return false;
      }
      var fault := remote.server.faults(remote.fetches);
      remote := remote.(fetches := remote.fetches + 1);
      if fault.Some? {
        err, exhausted := fault, true;
        return false;
      }
      if columns == [] && remote.server.names != [] {
        columns := remote.server.names;
      }
      var n := Min(batchSize, |remote.cursor|);
      buf, bufIdx, remote := remote.cursor[..n], 0, remote.(cursor := remote.cursor[n..]);
      assert buf[bufIdx..] == buf;
      if buf == [] {
        exhausted := true;
        return false;
      }
      return true;
    }

    method Next() returns (row: Option<T>)
      requires Valid()
      modifies this`remote, this`buf, this`bufIdx, this`exhausted, this`err, this`columns
      ensures Valid() && Given(row, View()) == NextOf(old(View()), remote.server) && remote.server == old(remote.server)
    {
      if !(active && bufIdx < |buf|) {
        var fetched := Fetch();
        if !fetched {
          return None;
        }
      }
      row := Some(buf[bufIdx]);
      bufIdx := bufIdx + 1;
    }

    /** An answer to CLOSE or COMMIT. */
    static function Noted(err: Option<OpError>, answer: Option<OpError>): Option<OpError> {
      if answer.Some? && err.None? then answer else err
    }

    method Dispose(d: Disposal)
      requires conn && pooled && !active && leased == |disposals| + 1 && bufIdx <= |buf| && batchSize > 0
      modifies this`conn, this`disposals
      ensures Valid() && disposals == old(disposals) + [d] && !conn
    {
      disposals := disposals + [d];
      conn := false;
    }

    /** Closes the cursor, ends an owned transaction and gives the connection
        back. `fatal` tells which errors end the connection. */
    method Close(connected: bool, closed: Option<OpError>, committed: Option<OpError>, fatal: OpError -> bool)
      returns (sent: seq<string>)
      requires Valid()
      modifies this`active, this`conn, this`err, this`disposals
      ensures Valid() && leased == old(leased) && View() == old(View()).(active := false, err := err)
      ensures !old(active) ==> sent == [] && disposals == old(disposals) && err == old(err) && conn == old(conn)
      ensures old(active) && old(pooled) ==>
                var broken := closed.Some? && fatal(closed.value);
                var lost := !connected || broken || (old(ownsTx) && committed.Some? && fatal(committed.value));
                disposals == old(disposals) + [if lost then MarkedDead else Released]
      ensures !old(pooled) ==> disposals == old(disposals)
      ensures old(active) && connected ==>
                var broken := closed.Some? && fatal(closed.value);
                && sent == ["CLOSE"] + (if old(ownsTx) && !broken then ["COMMIT;"] else [])
                && err == (if old(err).Some? then old(err)  // the first error is kept
                           else if closed.Some? then closed
                           else if old(ownsTx) && !broken then committed
                           else None)
      ensures old(active) && !connected ==> sent == [] && err == old(err)
    {
      sent := [];
      if !active {
        return;
      }
      active := false;
      if !connected {
        if pooled {
          Dispose(MarkedDead);
        }
        return;
      }
      var broken := false;
      sent := sent + ["CLOSE"];
      if closed.Some? {
        broken := fatal(closed.value);
        err := Noted(err, closed);
      }
      if !broken && ownsTx {
        sent := sent + ["COMMIT;"];
        if committed.Some? {
          broken := fatal(committed.value);
          err := Noted(err, committed);
        }
      }
      if pooled {
        Dispose(if broken then MarkedDead else Released);
      } else {
        conn := false;
      }
    }

    /** A stream moved into this one: its rows and its connection come along, and the other keeps neither. */
    method MoveFrom(o: PgRowStream<T>)
      requires this != o && Valid() && o.Valid() && !active
      modifies this, o
      ensures Valid() && o.Valid() && View() == old(o.View()) && remote.server == old(o.remote.server)
      ensures pooled == old(o.pooled) && ownsTx == old(o.ownsTx) && conn == old(o.conn)
      ensures !o.active && !o.pooled && !o.conn && Future(o.View(), o.remote.server) == []
      ensures disposals == old(disposals) && o.disposals == old(o.disposals)
      ensures leased + o.leased == old(leased + o.leased)
    {
      ghost var taken := if o.pooled && o.active then 1 else 0;
      AdoptRows(o);
      AdoptConnection(o, taken);
      o.Reset(taken);
    }

    /** The rows of the other stream: fetched, unfetched, and what was said about them. */
    method AdoptRows(o: PgRowStream<T>)
      requires this != o && Valid() && o.Valid() && !active
      modifies this`batchSize, this`exhausted, this`buf, this`bufIdx, this`err, this`columns, this`remote
      ensures Valid() && View() == o.View().(active := false) && remote.server == o.remote.server
    {
      batchSize, exhausted, buf, bufIdx := o.batchSize, o.exhausted, o.buf, o.bufIdx;
      err, columns, remote := o.err, o.columns, o.remote;
    }

    /** The connection of the other stream. */
    method AdoptConnection(o: PgRowStream<T>, ghost taken: int)
      requires this != o && Valid() && o.Valid() && !active && taken == (if o.pooled && o.active then 1 else 0)
      modifies this`pooled, this`conn, this`ownsTx, this`active, this`leased
      ensures Valid() && View() == old(View()).(active := o.active)
      ensures pooled == o.pooled && ownsTx == o.ownsTx && conn == o.conn && leased == old(leased) + taken
    {
      pooled, conn, ownsTx, active := o.pooled, o.conn, o.ownsTx, o.active;
      leased := leased + taken;
    }

    /** A stream moved from keeps neither rows nor connection. */
    method Reset(ghost taken: int)
      requires Valid() && taken == (if pooled && active then 1 else 0)
      modifies this
      ensures Valid() && !active && !pooled && !conn && Future(View(), remote.server) == []
      ensures disposals == old(disposals) && leased == old(leased) - taken
    {
      leased := leased - taken;
      pooled, conn, active, ownsTx := false, false, false, false;
      exhausted, buf, bufIdx, columns := true, [], 0, [];
    }

    /** Dropping an open pooled stream gives the connection up. */
    method Destroy()
      requires Valid()
      modifies this`active, this`conn, this`disposals
      ensures Valid() && leased == old(leased) && View() == old(View()).(active := false)
      ensures old(active && pooled) ==> disposals == old(disposals) + [MarkedDead]
      ensures !old(active && pooled) ==> disposals == old(disposals)
    {
      var drop := active && conn && pooled;
      active := false;
      if drop {
        Dispose(MarkedDead);
      }
    }
  }

  /** Any calls in any order: the rows handed out, followed by those not yet
      handed out, are always the rows of the cursor; and a pooled connection is
      given back exactly once, when the stream is closed or dropped. Calls that
      only read give what ReadTo says: of an open stream whose FETCHes succeed, a
      row for every next() until there is none left. */
  method AnyCalls<T>(s: PgRowStream<T>, calls: seq<Call>, fatal: OpError -> bool) returns (given: seq<T>)
    requires s.Valid()
    modifies s
    ensures s.Valid()
    ensures given + Unread(s.View()) == old(Unread(s.View()))
    ensures |s.disposals| - old(|s.disposals|) == if old(s.active && s.pooled) && !s.active then 1 else 0
    ensures OnlyReads(calls) ==> (given, s.View()) == ReadTo(old(s.View()), old(s.remote.server), calls, |calls|)
    ensures OnlyReads(calls) && old(Flowing(s.View(), s.remote.server)) ==>
              given == old(Unread(s.View()))[..Min(NextCalls(calls, |calls|), |old(Unread(s.View()))|)]
  {
    given := [];
    ghost var start, server := s.View(), s.remote.server;
    if OnlyReads(calls) && Flowing(start, server) { ReadsAPrefix(start, server, calls); }
    for i := 0 to |calls|
      invariant s.Valid() && s.leased == old(s.leased) && s.pooled == old(s.pooled)
      invariant s.remote.server == server
      invariant OnlyReads(calls) ==> (given, s.View()) == ReadTo(start, server, calls, i)
      invariant s.active ==> old(s.active)
      invariant given + Unread(s.View()) == old(Unread(s.View()))
    {
      given := Perform(s, calls[i], given, fatal);
    }
  }

  /** One call, with the rows given so far. */
  method Perform<T>(s: PgRowStream<T>, call: Call, given: seq<T>, fatal: OpError -> bool) returns (given': seq<T>)
    requires s.Valid()
    modifies s
    ensures s.Valid() && s.leased == old(s.leased) && s.pooled == old(s.pooled) && (s.active ==> old(s.active))
    ensures s.remote.server == old(s.remote.server)
    ensures given' + Unread(s.View()) == given + old(Unread(s.View()))
    ensures call.CallNext? ==>
              var g := NextOf(old(s.View()), old(s.remote.server));
              s.View() == g.state && given' == given + (if g.row.Some? then [g.row.value] else [])
    ensures call.CallSetBatch? ==> s.View() == Resized(old(s.View()), call.n) && given' == given
  {
    given' := given;
    match call {
      case CallNext => { given' := NextInto(s, given); }
      case CallSetBatch(n) => { s.SetBatchSize(n); }
      case CallClose(connected, closed, committed) => { var _ := s.Close(connected, closed, committed, fatal); }
      case CallDestroy => { s.Destroy(); }
    }
  }

  method NextInto<T>(s: PgRowStream<T>, given: seq<T>) returns (given': seq<T>)
    requires s.Valid()
    modifies s
    ensures s.Valid() && s.leased == old(s.leased) && s.pooled == old(s.pooled) && s.active == old(s.active)
    ensures s.disposals == old(s.disposals)
    ensures given' + Unread(s.View()) == given + old(Unread(s.View()))
    ensures s.remote.server == old(s.remote.server)
    ensures var g := NextOf(old(s.View()), old(s.remote.server));
            s.View() == g.state && given' == given + (if g.row.Some? then [g.row.value] else [])
  {
    NextYields(s.View(), s.remote.server);
    var row := s.Next();
    given' := if row.Some? then given + [row.value] else given;
    if row.Some? {
      Assoc(given, [row.value], Unread(s.View()));
    }
  }
}
