/** The per-channel delivery queue of the multiplexer: a limit on handler runs
    in flight, and an unbounded FIFO of notifications behind it. */
module ChannelQueue {

  /** One arrival: `note` names it, `handlers` are the runs it is worth, one each. */
  datatype Delivery = Delivery(note: nat, handlers: seq<nat>)

  /** The queue's fields, and beside them its history: what arrived, what was
      started, and for each started notification (by index) its runs in flight. */
  datatype State = State(
    limit: nat,  // 0 = no limit
    waiting: seq<Delivery>,
    running: nat,
    arrived: seq<Delivery>,
    started: seq<Delivery>,
    flying: multiset<nat>,
    finished: nat)

  function Fresh(limit: nat): State { State(limit, [], 0, [], [], multiset{}, 0) }

  predicate HasSlot(s: State) { s.limit == 0 || s.running < s.limit }

  function StartHead(s: State): State
    requires s.waiting != []
  {
    var d := s.waiting[0];
    s.(waiting := s.waiting[1..], running := s.running + |d.handlers|,
       started := s.started + [d], flying := s.flying[|s.started| := |d.handlers|])
  }

  /** take_ready_locked */
  function TakeReady(s: State): State
    decreases |s.waiting|
  {
    if s.waiting != [] && HasSlot(s) then TakeReady(StartHead(s)) else s
  }

  /** dispatch(), queue part. */
  function Arrive(s: State, d: Delivery): State {
    TakeReady(s.(waiting := s.waiting + [d], arrived := s.arrived + [d]))
  }

  function RunEnds(s: State, k: nat): State
    requires s.running > 0
  {
    s.(running := s.running - 1, flying := s.flying - multiset{k}, finished := s.finished + 1)
  }

  /** The end of run_handler(): a run of the k-th started notification is over. */
  function Finish(s: State, k: nat): State
    requires s.running > 0
  {
    TakeReady(RunEnds(s, k))
  }

  // ---------- runs ----------

  datatype Event = Arrives(d: Delivery) | Finishes(k: nat)

  /** A notification without handlers is never queued; only runs in flight finish. */
  ghost predicate Enabled(s: State, e: Event) {
    match e
    case Arrives(d) => d.handlers != []
    case Finishes(k) => k in s.flying && s.running > 0
  }

  ghost function Step(s: State, e: Event): State
    requires Enabled(s, e)
  {
    match e
    case Arrives(d) => Arrive(s, d)
    case Finishes(k) => Finish(s, k)
  }

  ghost predicate IsRun(s: State, events: seq<Event>)
    decreases |events|
  {
    events == [] || (Enabled(s, events[0]) && IsRun(Step(s, events[0]), events[1..]))
  }

  ghost function After(s: State, events: seq<Event>): State
    requires IsRun(s, events)
    decreases |events|
  {
    if events == [] then s else After(Step(s, events[0]), events[1..])
  }

  // ---------- invariants ----------

  function Runs(ds: seq<Delivery>): nat {
    if ds == [] then 0 else Runs(ds[..|ds| - 1]) + |ds[|ds| - 1].handlers|
  }

  /** The runs in flight that do not belong to the notification started last. */
  ghost function OlderRuns(s: State): int {
    if s.started == [] then |s.flying| else |s.flying| - s.flying[|s.started| - 1]
  }

  /** The notifications that have runs in flight. */
  ghost function Handled(s: State): set<nat> { set k | k in s.flying }

  ghost predicate Core(s: State) {
    && s.started + s.waiting == s.arrived
    && s.running == |s.flying|
    && s.running + s.finished == Runs(s.started)
    && (forall k | k in s.flying :: k < |s.started| && s.flying[k] <= |s.started[k].handlers|)
    && (s.limit > 0 ==> OlderRuns(s) < s.limit)
  }

  /** Nothing waits while a slot is free. */
  ghost predicate Inv(s: State) {
    Core(s) && (s.waiting == [] || !HasSlot(s))
  }

  lemma StartHeadKeeps(s: State)
    requires Core(s) && s.waiting != [] && HasSlot(s)
    ensures Core(StartHead(s))
  {
    var t := StartHead(s);
    var k := |s.started|;
    assert k !in s.flying;
    FlyingGrows(s.flying, k, |s.waiting[0].handlers|);
    assert t.started[..k] == s.started;
    assert t.started + t.waiting == s.started + s.waiting;
  }

  lemma FlyingGrows(m: multiset<nat>, k: nat, n: nat)
    requires k !in m
    ensures |m[k := n]| == |m| + n
  {}

  lemma {:induction false} TakeReadyKeeps(s: State)
    requires Core(s)
    ensures Inv(TakeReady(s)) && TakeReady(s).limit == s.limit
    ensures s.started <= TakeReady(s).started && TakeReady(s).arrived == s.arrived
    decreases |s.waiting|
  {
    if s.waiting != [] && HasSlot(s) {
      StartHeadKeeps(s);
      TakeReadyKeeps(StartHead(s));
    }
  }

  lemma RunEndsKeeps(s: State, k: nat)
    requires Core(s) && k in s.flying && s.running > 0
    ensures Core(RunEnds(s, k))
  {}

  lemma StepKeeps(s: State, e: Event)
    requires Inv(s) && Enabled(s, e)
    ensures Inv(Step(s, e)) && Step(s, e).limit == s.limit
  {
    match e
    case Arrives(d) =>
      TakeReadyKeeps(s.(waiting := s.waiting + [d], arrived := s.arrived + [d]));
    case Finishes(k) =>
      RunEndsKeeps(s, k);
      TakeReadyKeeps(RunEnds(s, k));
  }

  lemma {:induction false} RunKeeps(s: State, events: seq<Event>)
    requires Inv(s) && IsRun(s, events)
    ensures Inv(After(s, events)) && After(s, events).limit == s.limit
    decreases |events|
  {
    if events != [] {
      StepKeeps(s, events[0]);
      RunKeeps(Step(s, events[0]), events[1..]);
    }
  }

  // ---------- what every run of a queue guarantees ----------

  /** Nothing is dropped or reordered, and nothing is stuck: what waits has runs
      in flight ahead of it, whose end will start it. */
  lemma DeliversInOrder(limit: nat, events: seq<Event>)
    requires IsRun(Fresh(limit), events)
    ensures var s := After(Fresh(limit), events);
            && s.started + s.waiting == s.arrived
            && s.running == |s.flying| == Runs(s.started) - s.finished
            && (s.waiting != [] ==> s.running >= limit > 0)
            && (s.flying == multiset{} ==> s.started == s.arrived)
  {
    RunKeeps(Fresh(limit), events);
  }

  lemma {:induction false} DistinctAtMostSize(m: multiset<nat>, keys: set<nat>)
    requires forall k | k in keys :: k in m
    ensures |keys| <= |m|
    decreases |keys|
  {
    if keys != {} {
      var k :| k in keys;
      var m' := m[k := 0];
      assert m == m'[k := m[k]];
      FlyingGrows(m', k, m[k]);
      DistinctAtMostSize(m', keys - {k});
    }
  }

  /** At most `limit` notifications have runs in flight; the runs exceed the
      limit by less than the handlers of the last notification started; and
      limit 1 means that all runs in flight are that one's. */
  ghost predicate WithinLimit(s: State) {
    && |Handled(s)| <= s.limit
    && (s.started != [] ==> s.running <= s.limit - 1 + |s.started[|s.started| - 1].handlers|)
    && (s.limit == 1 ==> forall k | k in s.flying :: k == |s.started| - 1)
  }

  /** The limit bounds the notifications being handled, not the runs. */
  lemma LimitBoundsNotifications(limit: nat, events: seq<Event>)
    requires limit > 0 && IsRun(Fresh(limit), events)
    ensures After(Fresh(limit), events).limit == limit && WithinLimit(After(Fresh(limit), events))
  {
    RunKeeps(Fresh(limit), events);
    HandledBound(After(Fresh(limit), events));
  }

  lemma SplitOff(m: multiset<nat>, k: nat)
    ensures |m| == |m[k := 0]| + m[k]
  {
    FlyingGrows(m[k := 0], k, m[k]);
    assert m == m[k := 0][k := m[k]];
  }

  lemma HandledBound(s: State)
    requires Core(s) && s.limit > 0
    ensures WithinLimit(s)
  {
    if s.started == [] {
      assert Handled(s) == {};
    } else {
      var last := |s.started| - 1;
      var older := s.flying[last := 0];
      var keys := set k | k in older;
      SplitOff(s.flying, last);
      assert s.flying[last] <= |s.started[last].handlers|;
      DistinctAtMostSize(older, keys);
      CardinalitySubset(Handled(s), keys + {last});
      forall k | k in s.flying && k != last
        ensures s.limit > 1
      {
        DistinctAtMostSize(older, {k});
      }
    }
  }

  lemma CardinalitySubset(a: set<nat>, b: set<nat>)
    requires a <= b
    ensures |a| <= |b|
  {
    assert b == a + (b - a);
  }

  // ---------- the documented bound on runs ----------

  ghost predicate AtMostHandlers(h: nat, events: seq<Event>) {
    forall i | 0 <= i < |events| :: events[i].Arrives? ==> |events[i].d.handlers| <= h
  }

  ghost predicate OneHandlerEach(ds: seq<Delivery>) {
    forall i | 0 <= i < |ds| :: |ds[i].handlers| == 1
  }

  lemma StepArrived(s: State, e: Event)
    requires Inv(s) && Enabled(s, e)
    ensures Step(s, e).arrived == if e.Arrives? then s.arrived + [e.d] else s.arrived
  {
    TakeReadyKeeps(if e.Arrives? then s.(waiting := s.waiting + [e.d], arrived := s.arrived + [e.d])
                   else RunEnds(s, e.k));
  }

  lemma {:induction false} ArrivedHandlers(s: State, events: seq<Event>)
    requires Inv(s) && IsRun(s, events) && AtMostHandlers(1, events) && OneHandlerEach(s.arrived)
    ensures OneHandlerEach(After(s, events).arrived)
    decreases |events|
  {
    if events != [] {
      StepKeeps(s, events[0]);
      StepArrived(s, events[0]);
      ArrivedHandlers(Step(s, events[0]), events[1..]);
    }
  }

  /** n notifications of one handler each. */
  function Singles(n: nat): seq<Event> {
    if n == 0 then [] else Singles(n - 1) + [Arrives(Delivery(n, [0]))]
  }

  lemma {:induction false} RunExtends(s: State, events: seq<Event>, e: Event)
    requires IsRun(s, events) && Enabled(After(s, events), e)
    ensures IsRun(s, events + [e]) && After(s, events + [e]) == Step(After(s, events), e)
    decreases |events|
  {
    if events == [] {
      assert events + [e] == [e] && [e][1..] == [];
      assert IsRun(Step(s, e), []);
    } else {
      RunExtends(Step(s, events[0]), events[1..], e);
      assert (events + [e])[1..] == events[1..] + [e];
    }
  }

  /** An arrival at an idle-enough queue starts at once. */
  lemma ArrivalStarts(s: State, d: Delivery)
    requires s.waiting == [] && HasSlot(s)
    ensures Arrive(s, d).running == s.running + |d.handlers| && Arrive(s, d).waiting == []
    ensures Arrive(s, d).limit == s.limit
  {
    var a := s.(waiting := s.waiting + [d], arrived := s.arrived + [d]);
    assert a.waiting[0] == d && StartHead(a).waiting == [];
    assert TakeReady(StartHead(a)) == StartHead(a);
  }

  lemma {:induction false} SinglesRun(limit: nat, n: nat)
    requires n < limit
    ensures IsRun(Fresh(limit), Singles(n))
    ensures var s := After(Fresh(limit), Singles(n)); s.running == n && s.waiting == [] && s.limit == limit
  {
    if n > 0 {
      SinglesRun(limit, n - 1);
      var s := After(Fresh(limit), Singles(n - 1));
      ArrivalStarts(s, Delivery(n, [0]));
      RunExtends(Fresh(limit), Singles(n - 1), Arrives(Delivery(n, [0])));
    }
  }

  lemma {:induction false} SinglesHandlers(n: nat)
    ensures AtMostHandlers(1, Singles(n))
  {
    if n > 0 { SinglesHandlers(n - 1); }
  }

  /** The bound of LimitBoundsNotifications is reached for every limit and every
      number of handlers: the queue can have limit - 1 + h runs in flight. */
  lemma BoundIsTight(limit: nat, h: nat)
    requires limit > 0 && h > 0
    ensures var events := Singles(limit - 1) + [Arrives(Delivery(0, seq(h, i => i)))];
            && IsRun(Fresh(limit), events) && AtMostHandlers(h, events)
            && After(Fresh(limit), events).running == limit - 1 + h
  {
    var d := Delivery(0, seq(h, i => i));
    SinglesRun(limit, limit - 1);
    SinglesHandlers(limit - 1);
    ArrivalStarts(After(Fresh(limit), Singles(limit - 1)), d);
    RunExtends(Fresh(limit), Singles(limit - 1), Arrives(d));
  }

  /** "At most channel_queue_capacity handler runs in flight" holds exactly for
      channels whose notifications go to one handler. */
  lemma DocumentedBoundHoldsIff(limit: nat, h: nat)
    requires limit > 0 && h > 0
    ensures (forall events | IsRun(Fresh(limit), events) && AtMostHandlers(h, events) ::
               After(Fresh(limit), events).running <= limit)
            <==> h == 1
  {
    if h == 1 {
      forall events | IsRun(Fresh(limit), events) && AtMostHandlers(h, events)
        ensures After(Fresh(limit), events).running <= limit
      {
        RunKeeps(Fresh(limit), events);
        ArrivedHandlers(Fresh(limit), events);
        LimitBoundsNotifications(limit, events);
        var s := After(Fresh(limit), events);
        if s.started != [] {
          assert s.arrived[|s.started| - 1] == s.started[|s.started| - 1];
        } else {
          assert Runs(s.started) == 0;
        }
      }
    } else {
      BoundIsTight(limit, h);
    }
  }

  // ---------- the object ----------

  class Queue {
    const limit: nat
    var waiting: seq<Delivery>
    var running: nat
    ghost var arrived: seq<Delivery>
    ghost var started: seq<Delivery>
    ghost var flying: multiset<nat>
    ghost var finished: nat

    ghost function View(): State
      reads this
    {
      State(limit, waiting, running, arrived, started, flying, finished)
    }

    constructor (l: nat)
      ensures View() == Fresh(l)
    {
      limit, waiting, running := l, [], 0;
      arrived, started, flying, finished := [], [], multiset{}, 0;
    }

    /** Starts the longest prefix of the waiting line whose elements each found fewer
        runs than the limit; `ready` is that prefix. Arrivals, ended runs and the
        limit stay as they were. */
    method TakeReadyLocked() returns (ready: seq<Delivery>)
      modifies this
      ensures View() == TakeReady(old(View())) && started == old(started) + ready
    {
      ready := [];
      ghost var s := View();
      while waiting != [] && (limit == 0 || running < limit)
        invariant s == View() && TakeReady(s) == TakeReady(old(View()))
        invariant started == old(started) + ready
        decreases |waiting|
      {
        var d := waiting[0];
        running := running + |d.handlers|;
        ready := ready + [d];
        waiting := waiting[1..];
        flying := flying[|started| := |d.handlers|];
        started := started + [d];
        assert View() == StartHead(s);
        s := View();
      }
    }

    method Dispatch(d: Delivery) returns (ready: seq<Delivery>)
      modifies this
      ensures View() == Arrive(old(View()), d) && started == old(started) + ready
    {
      arrived := arrived + [d];
      waiting := waiting + [d];
      ready := TakeReadyLocked();
    }

    method RunFinished(ghost k: nat) returns (ready: seq<Delivery>)
      requires running > 0
      modifies this
      ensures View() == Finish(old(View()), k) && started == old(started) + ready
    {
      running := running - 1;
      flying, finished := flying - multiset{k}, finished + 1;
      ready := TakeReadyLocked();
    }
  }
}
