/** A parked task is never beyond help: from every reachable state some few steps
    of itself and of one other task give it a connection. Nothing makes those steps
    happen, though: others may overtake it as often as they like. */
module PoolProgress {
  import opened PoolProtocol

  /** After these events t holds a connection. */
  ghost predicate Served(s: State, events: seq<Event>, t: Task) {
    IsRun(s, events) && t in After(s, events).tasks && After(s, events).tasks[t].Holding?
  }

  /** Only t and u move. */
  predicate MovesOnly(events: seq<Event>, t: Task, u: Task) {
    forall i | 0 <= i < |events| :: events[i].t == t || events[i].t == u
  }

  /** There is an idle connection or a free slot. */
  predicate Available(s: State) { s.idle != [] || s.live < s.max }

  ghost predicate Plan(s: State, events: seq<Event>, t: Task, u: Task, n: nat) {
    Served(s, events, t) && MovesOnly(events, t, u) && |events| <= n
  }

  lemma Prepend(s: State, e: Event, rest: seq<Event>, t: Task, u: Task, n: nat) returns (events: seq<Event>)
    requires Enabled(s, e) && (e.t == t || e.t == u) && Plan(Step(s, e), rest, t, u, n)
    ensures Plan(s, events, t, u, n + 1)
  {
    events := [e] + rest;
    RunOfCons(s, e, Step(s, e), rest);
  }

  // ---------- the parked task itself, once it looks ----------

  lemma ServeDialing(s: State, t: Task, u: Task) returns (events: seq<Event>)
    requires t in s.tasks && s.tasks[t].Dialing?
    ensures Plan(s, events, t, u, 1)
  {
    var e := DialEnds(t, true);
    assert Plan(Step(s, e), [], t, u, 0);
    events := Prepend(s, e, [], t, u, 0);
  }

  lemma ServeChecking(s: State, t: Task, u: Task) returns (events: seq<Event>)
    requires t in s.tasks && s.tasks[t].Checking? && s.live < s.max
    ensures Plan(s, events, t, u, 3)
  {
    var claiming := Step(s, LoadLive(t));
    var rest := ServeDialing(Step(claiming, ClaimSlot(t)), t, u);
    rest := Prepend(claiming, ClaimSlot(t), rest, t, u, 1);
    events := Prepend(s, LoadLive(t), rest, t, u, 2);
  }

  lemma ServeLooking(s: State, t: Task, u: Task) returns (events: seq<Event>)
    requires t in s.tasks && s.tasks[t].Looking? && Available(s)
    ensures Plan(s, events, t, u, 4)
  {
    if s.idle != [] {
      assert Plan(Step(s, LookAndTake(t, true)), [], t, u, 3);
      events := Prepend(s, LookAndTake(t, true), [], t, u, 3);
    } else {
      var rest := ServeChecking(Step(s, LookAndMiss(t, false)), t, u);
      events := Prepend(s, LookAndMiss(t, false), rest, t, u, 3);
    }
  }

  // ---------- another task gives something back ----------

  /** t is parked and u is another task. */
  predicate Waits(s: State, t: Task, u: Task) {
    t in s.tasks && s.tasks[t].Parked? && u in s.tasks && u != t
  }

  lemma ServeBySignal(s: State, t: Task, u: Task) returns (events: seq<Event>)
    requires Waits(s, t, u) && s.tasks[u].Signalling? && Available(s)
    ensures Plan(s, events, t, u, 5)
  {
    assert SomeoneParked(s);
    var e := ReleasePermit(u, t);
    var rest := ServeLooking(Step(s, e), t, u);
    events := Prepend(s, e, rest, t, u, 4);
  }

  lemma ServeByHolder(s: State, t: Task, u: Task) returns (events: seq<Event>)
    requires Safe(s) && Waits(s, t, u) && s.tasks[u].Holding?
    ensures Plan(s, events, t, u, 6)
  {
    var at: map<Conn, Place> :| Placed(s, at);
    RoomForHeld(s, at, u);
    var e := GiveBack(u, true);
    var rest := ServeBySignal(Step(s, e), t, u);
    events := Prepend(s, e, rest, t, u, 5);
  }

  lemma ServeByDialer(s: State, t: Task, u: Task) returns (events: seq<Event>)
    requires Safe(s) && Waits(s, t, u) && s.tasks[u].Dialing?
    ensures Plan(s, events, t, u, 7)
  {
    var e := DialEnds(u, true);
    StepKeeps(s, e);
    var rest := ServeByHolder(Step(s, e), t, u);
    events := Prepend(s, e, rest, t, u, 6);
  }

  lemma ServeByRetirer(s: State, t: Task, u: Task) returns (events: seq<Event>)
    requires Safe(s) && Waits(s, t, u) && s.tasks[u].Retiring?
    ensures Plan(s, events, t, u, 6)
  {
    var at: map<Conn, Place> :| Placed(s, at);
    RetiringIsCounted(s, at, u);
    var e := Decrement(u);
    var rest := ServeBySignal(Step(s, e), t, u);
    events := Prepend(s, e, rest, t, u, 5);
  }

  lemma ServeByMarker(s: State, t: Task, u: Task) returns (events: seq<Event>)
    requires Safe(s) && Waits(s, t, u) && s.tasks[u].Condemned? && s.tasks[u].c !in s.dead
    ensures Plan(s, events, t, u, 7)
  {
    var e := ExchangeFlag(u);
    StepKeeps(s, e);
    var rest := ServeByRetirer(Step(s, e), t, u);
    events := Prepend(s, e, rest, t, u, 6);
  }

  /** A pool with nothing to give has every connection with some other task. */
  lemma ServeWhenFull(s: State, t: Task) returns (u: Task, events: seq<Event>)
    requires Safe(s) && t in s.tasks && s.tasks[t].Parked? && s.max > 0 && !Available(s)
    ensures u != t && u in s.tasks && Plan(s, events, t, u, 7)
  {
    var at: map<Conn, Place> :| Placed(s, at);
    var c := MissingBelow(s.retired, s.created);
    assert c in at && PlaceOk(s, c, at[c]);
    if at[c].With? {
      u := at[c].t;
      match s.tasks[u]
      case Dialing(_) => events := ServeByDialer(s, t, u);
      case Holding(_) => events := ServeByHolder(s, t, u);
      case Retiring(_, _) => events := ServeByRetirer(s, t, u);
    } else {
      u := at[c].marker;
      events := ServeByMarker(s, t, u);
    }
  }

  lemma {:induction false} MissingBelow(a: set<nat>, n: nat) returns (c: nat)
    requires |a| < n
    ensures c < n && c !in a
    decreases n
  {
    if n - 1 in a {
      c := MissingBelow(a - {n - 1}, n - 1);
    } else {
      c := n - 1;
    }
  }

  // ---------- something is to be had, and somebody is on the way to it ----------

  lemma ServeByCheckerOf(s: State, t: Task, u: Task) returns (events: seq<Event>)
    requires Safe(s) && Waits(s, t, u) && s.tasks[u].Checking? && s.live < s.max
    ensures Plan(s, events, t, u, 9)
  {
    var claiming := Step(s, LoadLive(u));
    StepKeeps(s, LoadLive(u));
    var rest := ServeByClaimer(claiming, t, u);
    events := Prepend(s, LoadLive(u), rest, t, u, 8);
  }

  /** The slot seen is still free. */
  lemma ServeByClaimer(s: State, t: Task, u: Task) returns (events: seq<Event>)
    requires Safe(s) && Waits(s, t, u) && s.tasks[u] == Claiming(s.live)
    ensures Plan(s, events, t, u, 8)
  {
    var e := ClaimSlot(u);
    StepKeeps(s, e);
    var rest := ServeByDialer(Step(s, e), t, u);
    events := Prepend(s, e, rest, t, u, 7);
  }

  lemma ServeByLooker(s: State, t: Task, u: Task) returns (events: seq<Event>)
    requires Safe(s) && Waits(s, t, u) && s.tasks[u].Looking? && Available(s)
    ensures Plan(s, events, t, u, 10)
  {
    var e := if s.idle != [] then LookAndTake(u, true) else LookAndMiss(u, false);
    StepKeeps(s, e);
    var rest;
    if s.idle != [] {
      rest := ServeByHolder(Step(s, e), t, u);
    } else {
      rest := ServeByCheckerOf(Step(s, e), t, u);
    }
    events := Prepend(s, e, rest, t, u, 9);
  }

  /** An idle connection has somebody coming for it. */
  lemma ServeFromIdle(s: State, t: Task) returns (u: Task, events: seq<Event>)
    requires Safe(s) && t in s.tasks && s.tasks[t].Parked? && s.idle != []
    ensures u != t && u in s.tasks && Plan(s, events, t, u, 11)
  {
    assert SomeoneParked(s);
    assert WillLook(s) != {};
    u :| u in WillLook(s);
    if s.tasks[u].Looking? {
      events := ServeByLooker(s, t, u);
    } else {
      events := ServeBySignal(s, t, u);
    }
  }

  /** A free slot has somebody coming to look or to claim it. */
  lemma ServeFromSlot(s: State, t: Task) returns (u: Task, events: seq<Event>)
    requires Safe(s) && t in s.tasks && s.tasks[t].Parked? && s.live < s.max
    ensures u != t && u in s.tasks && Plan(s, events, t, u, 11)
  {
    assert SomeoneParked(s) && SomeoneWaits(s);
    assert WillLookOrCount(s) != {};
    u :| u in WillLookOrCount(s);
    match s.tasks[u]
    case Looking => events := ServeByLooker(s, t, u);
    case Signalling(_) => events := ServeBySignal(s, t, u);
    case Checking => events := ServeByCheckerOf(s, t, u);
    case Claiming(seen) =>
      if seen == s.live {
        events := ServeByClaimer(s, t, u);
      } else {
        StepKeeps(s, ClaimSlot(u));
        var rest := ServeByLooker(Step(s, ClaimSlot(u)), t, u);
        events := Prepend(s, ClaimSlot(u), rest, t, u, 10);
      }
  }

  /** In every reachable state of a pool that may have connections, every parked task
      can be served: at most eleven steps, of itself and of one task that is in the
      pool already, end with it holding a connection. */
  lemma ParkedCanBeServed(max: nat, history: seq<Event>, t: Task) returns (u: Task, events: seq<Event>)
    requires max > 0 && IsRun(Init(max), history)
    requires t in After(Init(max), history).tasks && After(Init(max), history).tasks[t].Parked?
    ensures u != t && u in After(Init(max), history).tasks
    ensures |events| <= 11 && MovesOnly(events, t, u) && Served(After(Init(max), history), events, t)
  {
    InitIsSafe(max);
    RunKeeps(Init(max), history);
    var s := After(Init(max), history);
    if s.idle != [] {
      u, events := ServeFromIdle(s, t);
    } else if s.live < s.max {
      u, events := ServeFromSlot(s, t);
    } else {
      u, events := ServeWhenFull(s, t);
    }
  }

  /** A pool of no connections cannot: there is never anything to hold. */
  lemma {:induction false} EmptyPoolServesNobody(history: seq<Event>, t: Task)
    requires IsRun(Init(0), history)
    ensures t in After(Init(0), history).tasks ==> !After(Init(0), history).tasks[t].Holding?
  {
    if t in After(Init(0), history).tasks && After(Init(0), history).tasks[t].Holding? {
      ReleaseAlwaysFits(0, history, t);
      assert false;
    }
  }

  // ---------- being overtaken ----------

  /** t is parked, u has a connection, there is nothing else to be had, and v is not in the pool. */
  predicate Contended(s: State, t: Task, u: Task, v: Task) {
    && Waits(s, t, u) && s.tasks[u].Holding? && v !in s.tasks
    && s.idle == [] && s.live == s.max > 0 && s.permits == 0
  }

  /** v has taken over from u. */
  function Overtaken(s: State, u: Task, v: Task): State
    requires u in s.tasks
  {
    s.(tasks := s.tasks[v := s.tasks[u]] - {u})
  }

  /** u gives its connection back, v takes it before u's permit wakes t, and t parks again. */
  function Round(t: Task, u: Task, v: Task, rest: seq<Event>): seq<Event> {
    [Enter(v)] + ([GiveBack(u, true)] + ([LookAndTake(v, true)] + ([ReleasePermit(u, t)] + Retry(t, rest))))
  }

  function Retry(t: Task, rest: seq<Event>): seq<Event> {
    [LookAndMiss(t, false)] + ([LoadLive(t)] + ([AcquirePermit(t)] + rest))
  }

  /** A woken task that finds nothing parks again. */
  lemma RetryRuns(s: State, t: Task, rest: seq<Event>)
    requires t in s.tasks && s.tasks[t].Looking? && s.idle == [] && s.live == s.max && s.permits == 0
    requires IsRun(Goto(s, t, Parked), rest)
    ensures IsRun(s, Retry(t, rest)) && After(s, Retry(t, rest)) == After(Goto(s, t, Parked), rest)
  {
    var checking, asking := Goto(s, t, Checking), Goto(s, t, Asking);
    RunOfCons(asking, AcquirePermit(t), Goto(s, t, Parked), rest);
    RunOfCons(checking, LoadLive(t), asking, [AcquirePermit(t)] + rest);
    RunOfCons(s, LookAndMiss(t, false), checking, [LoadLive(t)] + ([AcquirePermit(t)] + rest));
  }

  lemma RoundRuns(s: State, t: Task, u: Task, v: Task, rest: seq<Event>)
    requires Contended(s, t, u, v) && IsRun(Overtaken(s, u, v), rest)
    ensures Contended(Overtaken(s, u, v), t, v, u)
    ensures IsRun(s, Round(t, u, v, rest)) && After(s, Round(t, u, v, rest)) == After(Overtaken(s, u, v), rest)
  {
    var c := s.tasks[u].c;
    var s1 := Goto(s, v, Looking);
    var s2 := Goto(s1.(idle := [c]), u, Signalling(Leave));
    var s3 := Goto(Goto(s, v, Holding(c)), u, Signalling(Leave));
    var s4 := Goto(Overtaken(s, u, v), t, Looking);
    assert [] + [c] == [c] && [c][1..] == [];
    assert s3.tasks[t].Parked?;
    assert Step(s3, ReleasePermit(u, t)) == s4;
    assert Goto(s4, t, Parked) == Overtaken(s, u, v);
    RetryRuns(s4, t, rest);
    RunOfCons(s3, ReleasePermit(u, t), s4, Retry(t, rest));
    RunOfCons(s2, LookAndTake(v, true), s3, [ReleasePermit(u, t)] + Retry(t, rest));
    RunOfCons(s1, GiveBack(u, true), s2, [LookAndTake(v, true)] + ([ReleasePermit(u, t)] + Retry(t, rest)));
    RunOfCons(s, Enter(v), s1, [GiveBack(u, true)] + ([LookAndTake(v, true)] + ([ReleasePermit(u, t)] + Retry(t, rest))));
  }

  /** n rounds, u and v taking turns. */
  function Rounds(t: Task, u: Task, v: Task, n: nat): seq<Event>
    decreases n
  {
    if n == 0 then [] else Round(t, u, v, Rounds(t, v, u, n - 1))
  }

  /** How often a release picks t. */
  function Wakings(events: seq<Event>, t: Task): nat {
    if events == [] then 0
    else One(events[0].ReleasePermit? && events[0].woken == t) + Wakings(events[1..], t)
  }

  lemma WakingsCons(e: Event, rest: seq<Event>, t: Task)
    ensures Wakings([e] + rest, t) == One(e.ReleasePermit? && e.woken == t) + Wakings(rest, t)
  {
    assert ([e] + rest)[1..] == rest;
  }

  /** All t does is look, count and ask. */
  predicate InVain(events: seq<Event>, t: Task) {
    forall i | 0 <= i < |events| && events[i].t == t ::
      events[i].LookAndMiss? || events[i].LoadLive? || events[i].AcquirePermit?
  }

  lemma WakingsOfRound(t: Task, u: Task, v: Task, rest: seq<Event>)
    requires t != u && t != v
    ensures Wakings(Round(t, u, v, rest), t) == 1 + Wakings(rest, t)
    ensures InVain(rest, t) ==> InVain(Round(t, u, v, rest), t)
  {
    var look, load, ask := LookAndMiss(t, false), LoadLive(t), AcquirePermit(t);
    WakingsCons(ask, rest, t);
    WakingsCons(load, [ask] + rest, t);
    WakingsCons(look, [load] + ([ask] + rest), t);
    WakingsCons(ReleasePermit(u, t), Retry(t, rest), t);
    WakingsCons(LookAndTake(v, true), [ReleasePermit(u, t)] + Retry(t, rest), t);
    WakingsCons(GiveBack(u, true), [LookAndTake(v, true)] + ([ReleasePermit(u, t)] + Retry(t, rest)), t);
    WakingsCons(Enter(v), [GiveBack(u, true)] + ([LookAndTake(v, true)] + ([ReleasePermit(u, t)] + Retry(t, rest))), t);
  }

  /** After two rounds the pool is where it was, so this can go on for ever. */
  lemma {:induction false} RoundsRun(s: State, t: Task, u: Task, v: Task, n: nat)
    requires Contended(s, t, u, v)
    ensures IsRun(s, Rounds(t, u, v, n))
    ensures After(s, Rounds(t, u, v, n)) == if n % 2 == 0 then s else Overtaken(s, u, v)
    ensures Wakings(Rounds(t, u, v, n), t) == n && InVain(Rounds(t, u, v, n), t)
    decreases n
  {
    if n > 0 {
      var o := Overtaken(s, u, v);
      RoundRuns(s, t, u, v, []);
      RoundsRun(o, t, v, u, n - 1);
      RoundRuns(s, t, u, v, Rounds(t, v, u, n - 1));
      WakingsOfRound(t, u, v, Rounds(t, v, u, n - 1));
      assert Overtaken(o, v, u) == s;
    }
  }

  /** Service is only possible, not certain. In every reachable state in which t is parked,
      another task has a connection and nothing is left over, a caller from outside can
      keep overtaking t: for every n there is a continuation that wakes t n times and
      leaves it parked, having got nothing. */
  lemma ParkedCanBeOvertaken(max: nat, history: seq<Event>, t: Task, u: Task, v: Task, n: nat) returns (events: seq<Event>)
    requires IsRun(Init(max), history) && Waits(After(Init(max), history), t, u)
    requires After(Init(max), history).tasks[u].Holding? && v !in After(Init(max), history).tasks
    requires !Available(After(Init(max), history))
    ensures IsRun(After(Init(max), history), events) && InVain(events, t) && Wakings(events, t) == n
    ensures var s := After(After(Init(max), history), events); t in s.tasks && s.tasks[t].Parked?
  {
    InitIsSafe(max);
    RunKeeps(Init(max), history);
    var s := After(Init(max), history);
    assert SomeoneParked(s);
    var at: map<Conn, Place> :| Placed(s, at);
    RoomForHeld(s, at, u);
    events := Rounds(t, u, v, n);
    RoundsRun(s, t, u, v, n);
  }

  /** Such a state is soon reached: one connection, and two tasks that want it. */
  lemma ContendedIsReached()
    ensures var served := [LookAndMiss(1, false)] + ([LoadLive(1)] + ([ClaimSlot(1)] + [DialEnds(1, true)]));
            var history := [Enter(0)] + ([Enter(1)] + (served + Retry(0, [])));
            IsRun(Init(1), history) && Contended(After(Init(1), history), 0, 1, 2)
  {
    var s1 := Goto(Init(1), 0, Looking);
    var s2 := Goto(s1, 1, Looking);
    var s3, s4 := Goto(s2, 1, Checking), Goto(s2, 1, Claiming(0));
    var s5 := Goto(s2.(live := 1, created := 1), 1, Dialing(0));
    var s6 := Goto(s2.(live := 1, created := 1), 1, Holding(0));
    var waiting := Retry(0, []);
    RetryRuns(s6, 0, []);
    RunOfCons(s5, DialEnds(1, true), s6, waiting);
    RunOfCons(s4, ClaimSlot(1), s5, [DialEnds(1, true)] + waiting);
    RunOfCons(s3, LoadLive(1), s4, [ClaimSlot(1)] + ([DialEnds(1, true)] + waiting));
    RunOfCons(s2, LookAndMiss(1, false), s3, [LoadLive(1)] + ([ClaimSlot(1)] + ([DialEnds(1, true)] + waiting)));
    var served := [LookAndMiss(1, false)] + ([LoadLive(1)] + ([ClaimSlot(1)] + [DialEnds(1, true)]));
    assert served + waiting == [LookAndMiss(1, false)] + ([LoadLive(1)] + ([ClaimSlot(1)] + ([DialEnds(1, true)] + waiting)));
    RunOfCons(s1, Enter(1), s2, served + waiting);
    RunOfCons(Init(1), Enter(0), s1, [Enter(1)] + (served + waiting));
  }
}
