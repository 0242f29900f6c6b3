/** Stream adaptors over a row stream: pulling rows one at a time through any
    nest of them is the same as applying them to the whole row sequence. */
module Pipeline {
  import opened Wrappers
  import opened RowStream
  import opened Sequences

  /** A nest of adaptors, each holding its upstream and its own counter. */
  datatype Pipe<!T> =
    | Source
    | Transform(up: Pipe<T>, f: T -> T)
    | Filter(up: Pipe<T>, keep: T -> bool)
    | Take(up: Pipe<T>, rem: nat)
    | Skip(up: Pipe<T>, rem: nat)

  // ---------- the adaptors on whole sequences ----------

  function Mapped<T>(s: seq<T>, f: T -> T): seq<T> { seq(|s|, i requires 0 <= i < |s| => f(s[i])) }

  function Kept<T>(s: seq<T>, keep: T -> bool): seq<T> {
    if s == [] then [] else (if keep(s[0]) then [s[0]] else []) + Kept(s[1..], keep)
  }

  /** Filtering keeps every row that passes, as often as it comes, and no other ... */
  lemma {:induction false} KeptExactly<T>(s: seq<T>, keep: T -> bool, v: T)
    ensures multiset(Kept(s, keep))[v] == if keep(v) then multiset(s)[v] else 0
    decreases |s|
  {
    if s != [] {
      KeptExactly(s[1..], keep, v);
      assert s == [s[0]] + s[1..];
    }
  }

  /** ... in the order in which they come: what is kept of a longer sequence begins with what
      is kept of its beginning. */
  lemma {:induction false} KeptInOrder<T>(a: seq<T>, b: seq<T>, keep: T -> bool)
    ensures Kept(a + b, keep) == Kept(a, keep) + Kept(b, keep)
    decreases |a|
  {
    if a == [] {
      assert a + b == b;
    } else {
      KeptInOrder(a[1..], b, keep);
      KeptCons(a[0], a[1..], keep);
      KeptCons(a[0], a[1..] + b, keep);
      assert a == [a[0]] + a[1..] && a + b == [a[0]] + (a[1..] + b);
      Assoc(if keep(a[0]) then [a[0]] else [], Kept(a[1..], keep), Kept(b, keep));
    }
  }

  /** What a pipe makes of the whole sequence of rows. */
  function Denote<T>(p: Pipe<T>, rows: seq<T>): seq<T> {
    match p
    case Source => rows
    case Transform(up, f) => Mapped(Denote(up, rows), f)
    case Filter(up, keep) => Kept(Denote(up, rows), keep)
    case Take(up, rem) => var d := Denote(up, rows); d[..Min(rem, |d|)]
    case Skip(up, rem) => var d := Denote(up, rows); d[Min(rem, |d|)..]
  }

  // ---------- one next() ----------

  datatype Pulled<!T> = Pulled(value: Option<T>, pipe: Pipe<T>, rows: seq<T>)

  function Depth<T>(p: Pipe<T>): nat {
    match p
    case Source => 0
    case Transform(up, _) => 1 + Depth(up)
    case Filter(up, _) => 1 + Depth(up)
    case Take(up, _) => 1 + Depth(up)
    case Skip(up, _) => 1 + Depth(up)
  }

  /** next() of a pipe, on the rows its source still gives. */
  function Pull<T>(p: Pipe<T>, rows: seq<T>): (r: Pulled<T>)
    ensures Depth(r.pipe) == Depth(p) && |r.rows| <= |rows|
    ensures r.value.Some? ==> |r.rows| < |rows|
    decreases Depth(p), |rows|
  {
    match p
    case Source => if rows == [] then Pulled(None, p, rows) else Pulled(Some(rows[0]), p, rows[1..])
    case Transform(up, f) =>
      var u := Pull(up, rows);
      Pulled(if u.value.Some? then Some(f(u.value.value)) else None, Transform(u.pipe, f), u.rows)
    case Filter(up, keep) =>
      var u := Pull(up, rows);
      if u.value.None? || keep(u.value.value) then Pulled(u.value, Filter(u.pipe, keep), u.rows)
      else Pull(Filter(u.pipe, keep), u.rows)
    case Take(up, rem) =>
      if rem == 0 then Pulled(None, p, rows)
      else
        var u := Pull(up, rows);
        Pulled(u.value, Take(u.pipe, if u.value.Some? then rem - 1 else rem), u.rows)
    case Skip(up, rem) =>
      var u := Pull(up, rows);
      if u.value.None? || rem == 0 then Pulled(u.value, Skip(u.pipe, rem), u.rows)
      else Pull(Skip(u.pipe, rem - 1), u.rows)
  }

  /** `r` is one step through what `p` denotes: its first value, or the end. */
  ghost predicate StepsThrough<T(!new)>(p: Pipe<T>, rows: seq<T>, r: Pulled<T>) {
    match r.value
    case Some(v) => Denote(p, rows) == [v] + Denote(r.pipe, r.rows)
    case None => Denote(p, rows) == [] && Denote(r.pipe, r.rows) == []
  }

  lemma {:induction false} PullSteps<T(!new)>(p: Pipe<T>, rows: seq<T>)
    ensures StepsThrough(p, rows, Pull(p, rows))
    decreases Depth(p), |rows|
  {
    if !p.Source? {
      PullSteps(p.up, rows);
      var u := Pull(p.up, rows);
      match p
      case Transform(up, f) => TransformSteps(up, f, rows);
      case Filter(up, keep) =>
        if u.value.Some? {
          KeptCons(u.value.value, Denote(u.pipe, u.rows), keep);
          if !keep(u.value.value) { PullSteps(Filter(u.pipe, keep), u.rows); }
        }
      case Take(up, rem) => TakeSteps(up, rem, rows);
      case Skip(up, rem) =>
        if u.value.Some? && rem > 0 {
          SkipCons(u.value.value, Denote(u.pipe, u.rows), rem);
          PullSteps(Skip(u.pipe, rem - 1), u.rows);
        }
    }
  }

  lemma TransformSteps<T(!new)>(up: Pipe<T>, f: T -> T, rows: seq<T>)
    requires StepsThrough(up, rows, Pull(up, rows))
    ensures StepsThrough(Transform(up, f), rows, Pull(Transform(up, f), rows))
  {
  }

  lemma TakeSteps<T(!new)>(up: Pipe<T>, rem: nat, rows: seq<T>)
    requires StepsThrough(up, rows, Pull(up, rows))
    ensures StepsThrough(Take(up, rem), rows, Pull(Take(up, rem), rows))
  {
    var u := Pull(up, rows);
    if rem > 0 && u.value.Some? {
      TakeCons(u.value.value, Denote(u.pipe, u.rows), rem);
    }
  }

  lemma TakeCons<T>(v: T, s: seq<T>, n: nat)
    requires n > 0
    ensures ([v] + s)[..Min(n, |s| + 1)] == [v] + s[..Min(n - 1, |s|)]
  {
  }

  lemma KeptCons<T>(v: T, s: seq<T>, keep: T -> bool)
    ensures Kept([v] + s, keep) == (if keep(v) then [v] else []) + Kept(s, keep)
  {
    assert ([v] + s)[1..] == s;
  }

  lemma SkipCons<T>(v: T, s: seq<T>, n: nat)
    requires n > 0
    ensures ([v] + s)[Min(n, |s| + 1)..] == s[Min(n - 1, |s|)..]
  {
  }

  // ---------- a whole run ----------

  /** The state after `n` calls of next(). */
  function Advance<T>(p: Pipe<T>, rows: seq<T>, n: nat): Pulled<T>
    decreases n
  {
    if n == 0 then Pulled(None, p, rows)
    else var r := Pull(p, rows); Advance(r.pipe, r.rows, n - 1)
  }

  /** Everything next() gives until the end, and what is left behind. */
  datatype Drained<!T> = Drained(values: seq<T>, pipe: Pipe<T>, rows: seq<T>)

  function Drain<T>(p: Pipe<T>, rows: seq<T>): Drained<T>
    decreases |rows|
  {
    var r := Pull(p, rows);
    if r.value.None? then Drained([], r.pipe, r.rows)
    else var d := Drain(r.pipe, r.rows); Drained([r.value.value] + d.values, d.pipe, d.rows)
  }

  /** Any nest of adaptors equals the same operations on the whole sequence. */
  lemma {:induction false} DrainDenotes<T(!new)>(p: Pipe<T>, rows: seq<T>)
    ensures Drain(p, rows).values == Denote(p, rows)
    decreases |rows|
  {
    PullSteps(p, rows);
    var r := Pull(p, rows);
    if r.value.Some? { DrainDenotes(r.pipe, r.rows); }
  }

  /** take(n) uses its upstream exactly as n calls of next() would, or, when the
      upstream ends before that, as the calls up to and including the one that
      finds the end: never more than n. */
  lemma {:induction false} TakePullsAtMost<T(!new)>(up: Pipe<T>, n: nat, rows: seq<T>)
    ensures var pulls := Min(n, Length(up, rows) + 1);
            var d := Drain(Take(up, n), rows);
            && pulls <= n && d.rows == Advance(up, rows, pulls).rows
            && d.pipe == Take(Advance(up, rows, pulls).pipe, n - Min(n, Length(up, rows)))
    decreases n
  {
    var u := Pull(up, rows);
    PullLength(up, rows);
    if n > 0 {
      if u.value.Some? {
        TakePullsAtMost(u.pipe, n - 1, u.rows);
        DrainTakeStep(up, n, rows);
        AdvanceStep(up, rows, Min(n, Length(up, rows) + 1));
      } else {
        AdvanceStep(up, rows, 1);
      }
    }
  }

  /** How many values a pipe denotes. */
  function Length<T>(p: Pipe<T>, rows: seq<T>): nat { |Denote(p, rows)| }

  lemma PullLength<T(!new)>(p: Pipe<T>, rows: seq<T>)
    ensures var u := Pull(p, rows);
            if u.value.Some? then Length(p, rows) == 1 + Length(u.pipe, u.rows) else Length(p, rows) == 0
  {
    PullSteps(p, rows);
  }

  lemma DrainTakeStep<T(!new)>(up: Pipe<T>, n: nat, rows: seq<T>)
    requires n > 0 && Pull(up, rows).value.Some?
    ensures var u := Pull(up, rows);
            var d, e := Drain(Take(up, n), rows), Drain(Take(u.pipe, n - 1), u.rows);
            d.pipe == e.pipe && d.rows == e.rows
  {
  }

  lemma AdvanceStep<T>(p: Pipe<T>, rows: seq<T>, n: nat)
    requires n > 0
    ensures Advance(p, rows, n) == Advance(Pull(p, rows).pipe, Pull(p, rows).rows, n - 1)
  {
  }

  /** Directly over a row stream: take(n) leaves every row after the first n unread. */
  lemma {:induction false} TakeLeavesTheRest<T(!new)>(rows: seq<T>, n: nat)
    ensures Drain(Take(Source, n), rows).rows == rows[Min(n, |rows|)..]
    ensures Drain(Take(Source, n), rows).values == rows[..Min(n, |rows|)]
    decreases n
  {
    DrainDenotes(Take(Source, n), rows);
    if n > 0 && rows != [] {
      TakeLeavesTheRest(rows[1..], n - 1);
      assert Pull(Take(Source, n), rows) == Pulled(Some(rows[0]), Take(Source, n - 1), rows[1..]);
      assert rows[1..][Min(n - 1, |rows| - 1)..] == rows[Min(n, |rows|)..];
    }
  }

  // ---------- the objects ----------

  /** What a pipe over this stream is still going to give. */
  ghost function Rows<T>(s: PgRowStream<T>): seq<T>
    requires s.Valid()
    reads s
  {
    Future(s.View(), s.remote.server)
  }

  method SourceNext<T(!new)>(s: PgRowStream<T>) returns (v: Option<T>)
    requires s.Valid()
    modifies s
    ensures s.Valid() && s.active == old(s.active) && Pulled(v, Source, Rows(s)) == Pull(Source, old(Rows(s)))
  {
    NextYields(s.View(), s.remote.server);
    v := s.Next();
  }

  method Next<T(!new)>(p: Pipe<T>, s: PgRowStream<T>) returns (v: Option<T>, p': Pipe<T>)
    requires s.Valid()
    modifies s
    ensures s.Valid() && s.active == old(s.active) && Pulled(v, p', Rows(s)) == Pull(p, old(Rows(s)))
    decreases Depth(p), 0
  {
    match p {
      case Source => {
        v := SourceNext(s);
        p' := p;
      }
      case Transform(up, f) => {
        var u, up' := Next(up, s);
        v := if u.Some? then Some(f(u.value)) else None;
        p' := Transform(up', f);
      }
      case Filter(up, keep) => { v, p' := FilterNext(up, keep, s); }
      case Take(up, rem) => {
        if rem == 0 {
          return None, p;
        }
        var up';
        v, up' := Next(up, s);
        p' := Take(up', if v.Some? then rem - 1 else rem);
      }
      case Skip(up, rem) => { v, p' := SkipNext(up, rem, s); }
    }
  }

  method FilterNext<T(!new)>(up: Pipe<T>, keep: T -> bool, s: PgRowStream<T>) returns (v: Option<T>, p': Pipe<T>)
    requires s.Valid()
    modifies s
    ensures s.Valid() && s.active == old(s.active) && Pulled(v, p', Rows(s)) == Pull(Filter(up, keep), old(Rows(s)))
    decreases Depth(up), 1
  {
    var cur := up;
    while true
      invariant s.Valid() && s.active == old(s.active) && Depth(cur) == Depth(up)
      invariant Pull(Filter(cur, keep), Rows(s)) == Pull(Filter(up, keep), old(Rows(s)))
      decreases |Rows(s)|
    {
      v, cur := Next(cur, s);
      if v.None? || keep(v.value) {
        return v, Filter(cur, keep);
      }
    }
  }

  lemma PullSkip<T(!new)>(up: Pipe<T>, rem: nat, rows: seq<T>)
    requires rem > 0
    ensures var u := Pull(up, rows);
            Pull(Skip(up, rem), rows)
            == if u.value.None? then Pulled(None, Skip(u.pipe, rem), u.rows) else Pull(Skip(u.pipe, rem - 1), u.rows)
  {
  }

  method SkipNext<T(!new)>(up: Pipe<T>, n: nat, s: PgRowStream<T>) returns (v: Option<T>, p': Pipe<T>)
    requires s.Valid()
    modifies s
    ensures s.Valid() && s.active == old(s.active) && Pulled(v, p', Rows(s)) == Pull(Skip(up, n), old(Rows(s)))
    decreases Depth(up), 1
  {
    var cur, rem := up, n;
    while rem > 0
      invariant s.Valid() && s.active == old(s.active) && Depth(cur) == Depth(up)
      invariant Pull(Skip(cur, rem), Rows(s)) == Pull(Skip(up, n), old(Rows(s)))
    {
      PullSkip(cur, rem, Rows(s));
      v, cur := Next(cur, s);
      if v.None? {
        return None, Skip(cur, rem);
      }
      rem := rem - 1;
    }
    v, cur := Next(cur, s);
    p' := Skip(cur, 0);
  }

  // ---------- terminals ----------

  /** What the server answers when a terminal closes its stream. */
  datatype Closing = Closing(connected: bool, closed: Option<OpError>, committed: Option<OpError>, fatal: OpError -> bool)

  /** The stream is closed, and had these rows still to give when it was. */
  ghost predicate Closed<T>(wasOpen: bool, s: PgRowStream<T>, rest: seq<T>)
    requires s.Valid()
    reads s
  {
    !s.active && (wasOpen ==> Future(s.View().(active := true), s.remote.server) == rest)
  }

  /** Every terminal closes the stream it has read. */
  method Finish<T(!new)>(s: PgRowStream<T>, end: Closing)
    requires s.Valid()
    modifies s
    ensures s.Valid() && Closed(old(s.active), s, old(Rows(s)))
  {
    var _ := s.Close(end.connected, end.closed, end.committed, end.fatal);
  }

  function Folded<T, A>(acc: A, f: (A, T) -> A, s: seq<T>): A
    decreases |s|
  {
    if s == [] then acc else Folded(f(acc, s[0]), f, s[1..])
  }

  method Reduce<T(!new), A>(p: Pipe<T>, s: PgRowStream<T>, end: Closing, init: A, f: (A, T) -> A) returns (acc: A)
    requires s.Valid()
    modifies s
    ensures s.Valid() && acc == Folded(init, f, Denote(p, old(Rows(s))))
    ensures Closed(old(s.active), s, Drain(p, old(Rows(s))).rows)
  {
    acc := init;
    var cur := p;
    while true
      invariant s.Valid() && s.active == old(s.active)
      invariant Folded(acc, f, Denote(cur, Rows(s))) == Folded(init, f, Denote(p, old(Rows(s))))
      invariant Drain(cur, Rows(s)).rows == Drain(p, old(Rows(s))).rows
      decreases |Rows(s)|
    {
      PullSteps(cur, Rows(s));
      var v;
      v, cur := Next(cur, s);
      if v.None? {
        break;
      }
      assert ([v.value] + Denote(cur, Rows(s)))[1..] == Denote(cur, Rows(s));
      acc := f(acc, v.value);
    }
    Finish(s, end);
  }

  method Count<T(!new)>(p: Pipe<T>, s: PgRowStream<T>, end: Closing) returns (n: nat)
    requires s.Valid()
    modifies s
    ensures s.Valid() && n == |Denote(p, old(Rows(s)))|
    ensures Closed(old(s.active), s, Drain(p, old(Rows(s))).rows)
  {
    n := 0;
    var cur := p;
    while true
      invariant s.Valid() && s.active == old(s.active)
      invariant n + |Denote(cur, Rows(s))| == |Denote(p, old(Rows(s)))|
      invariant Drain(cur, Rows(s)).rows == Drain(p, old(Rows(s))).rows
      decreases |Rows(s)|
    {
      PullSteps(cur, Rows(s));
      var v;
      v, cur := Next(cur, s);
      if v.None? {
        break;
      }
      n := n + 1;
    }
    Finish(s, end);
  }

  method Collect<T(!new)>(p: Pipe<T>, s: PgRowStream<T>, end: Closing) returns (out: seq<T>)
    requires s.Valid()
    modifies s
    ensures s.Valid() && out == Denote(p, old(Rows(s)))
    ensures Closed(old(s.active), s, Drain(p, old(Rows(s))).rows)
  {
    out := [];
    var cur := p;
    while true
      invariant s.Valid() && s.active == old(s.active)
      invariant out + Denote(cur, Rows(s)) == Denote(p, old(Rows(s)))
      invariant Drain(cur, Rows(s)).rows == Drain(p, old(Rows(s))).rows
      decreases |Rows(s)|
    {
      PullSteps(cur, Rows(s));
      var v;
      v, cur := Next(cur, s);
      if v.None? {
        break;
      }
      Assoc(out, [v.value], Denote(cur, Rows(s)));
      out := out + [v.value];
    }
    Finish(s, end);
  }

  /** for_each: `calls` are the calls of its callback, `n` is what it returns. */
  method ForEach<T(!new)>(p: Pipe<T>, s: PgRowStream<T>, end: Closing) returns (calls: seq<T>, n: nat)
    requires s.Valid()
    modifies s
    ensures s.Valid() && calls == Denote(p, old(Rows(s))) && n == |calls|
    ensures Closed(old(s.active), s, Drain(p, old(Rows(s))).rows)
  {
    calls, n := [], 0;
    var cur := p;
    while true
      invariant s.Valid() && s.active == old(s.active)
      invariant calls + Denote(cur, Rows(s)) == Denote(p, old(Rows(s))) && n == |calls|
      invariant Drain(cur, Rows(s)).rows == Drain(p, old(Rows(s))).rows
      decreases |Rows(s)|
    {
      PullSteps(cur, Rows(s));
      var v;
      v, cur := Next(cur, s);
      if v.None? {
        break;
      }
      Assoc(calls, [v.value], Denote(cur, Rows(s)));
      calls, n := calls + [v.value], n + 1;
    }
    Finish(s, end);
  }

  /** A stream opened on a cursor whose FETCHes succeed, read through any adaptors
      with any batch size, gives exactly the adaptors applied to the cursor's rows. */
  method CollectCursor<T(!new)>(rows: seq<T>, names: seq<string>, faults: Faults, batch: nat, p: Pipe<T>, end: Closing)
    returns (out: seq<T>)
    ensures NoFaultFrom(faults, 0) ==> out == Denote(p, rows)
  {
    var s := new PgRowStream<T>(rows, Server(faults, names), batch, false);
    if NoFaultFrom(faults, 0) {
      FutureIsUnread(s.View(), s.remote.server);
      assert [] + rows == rows;
    }
    out := Collect(p, s, end);
  }
}
