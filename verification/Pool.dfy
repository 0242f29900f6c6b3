/** The pool's methods, as the sequences of atomic operations they perform.

    The object carries the history of its operations: it is valid when its
    fields are what that history leads to, so what PoolProtocol proves of every
    run holds of every valid pool. A method runs here without interruption; the
    operations of other tasks that may come in between are the other events of
    the same protocol. */
module Pool {
  import opened Wrappers
  import opened PoolProtocol

  /** How an acquire ends, that it is suspended on the semaphore, or that another
      task took the slot it had seen. */
  datatype Acquired = Got(c: Conn) | Failed | Suspended | Beaten

  /** What dialing meets: can the connection string be built, which tries connect,
      and which sleeps between tries run to their end. */
  datatype DialEnv = DialEnv(conninfoOk: bool, tries: nat, connects: nat -> bool, slept: nat -> bool)

  /** Try k connects, and every try before it failed and was slept over. */
  predicate FirstConnects(d: DialEnv, k: nat) {
    k < d.tries && d.connects(k) && forall j: nat | j < k :: !d.connects(j) && d.slept(j)
  }

  ghost predicate Connects(d: DialEnv) { d.conninfoOk && exists k: nat :: FirstConnects(d, k) }

  /** The retry loop of a new connection. */
  method Dial(d: DialEnv) returns (ok: bool)
    ensures ok <==> Connects(d)
  {
    if !d.conninfoOk {
      return false;
    }
    var attempt := 0;
    while attempt < d.tries
      invariant 0 <= attempt <= d.tries
      invariant forall j: nat | j < attempt :: !d.connects(j) && (d.slept(j) || j + 1 == d.tries)
      invariant forall j: nat | j + 1 < attempt :: d.slept(j)
    {
      if d.connects(attempt) {
        assert FirstConnects(d, attempt);
        return true;
      }
      if attempt + 1 == d.tries || !d.slept(attempt) {
        forall k: nat ensures !FirstConnects(d, k) {
          if k > attempt && k < d.tries { assert !d.slept(attempt); }
        }
        return false;
      }
      attempt := attempt + 1;
    }
    ok := false;
  }

  class PgPool {
    const max: nat
    var idle: seq<Conn>
    var live: nat
    var permits: nat
    var dead: set<Conn>
    var created: nat
    var tasks: map<Task, Pc>
    ghost var retired: set<Conn>
    ghost var history: seq<Event>

    ghost function View(): State
      reads this
    {
      State(max, idle, live, permits, tasks, created, dead, retired)
    }

    ghost predicate Valid()
      reads this
    {
      IsRun(Init(max), history) && After(Init(max), history) == View()
    }

    /** The history of a method is made of operations of the calling task. */
    static ghost predicate Continues(before: seq<Event>, after: seq<Event>, t: Task) {
      before <= after && forall i | |before| <= i < |after| :: after[i].t == t
    }

    constructor (maxPoolSize: nat)
      ensures Valid() && max == maxPoolSize && history == [] && tasks == map[]
    {
      max := maxPoolSize;
      idle, live, permits, dead, created, tasks := [], 0, 0, {}, 0, map[];
      retired, history := {}, [];
    }

    // ---------- atomic operations ----------

    method Enter(t: Task)
      requires Valid() && t !in tasks
      modifies this
      ensures Valid() && View() == Step(old(View()), Event.Enter(t)) && history == old(history) + [Event.Enter(t)]
    {
      RunExtends(Init(max), history, Event.Enter(t));
      tasks := tasks[t := Looking];
      history := history + [Event.Enter(t)];
    }

    /** try_dequeue, and the check of what it found. */
    method TryDequeue(t: Task, healthy: bool) returns (c: Option<Conn>)
      requires Valid() && t in tasks && tasks[t].Looking?
      modifies this
      ensures var e := if old(idle) == [] then LookAndMiss(t, false) else LookAndTake(t, healthy);
              Valid() && View() == Step(old(View()), e) && history == old(history) + [e]
      ensures c == if old(idle) == [] then None else Some(old(idle)[0])
    {
      if idle == [] {
        RunExtends(Init(max), history, LookAndMiss(t, false));
        tasks := tasks[t := Checking];
        history := history + [LookAndMiss(t, false)];
        return None;
      }
      RunExtends(Init(max), history, LookAndTake(t, healthy));
      c := Some(idle[0]);
      tasks := tasks[t := if healthy then Holding(idle[0]) else Condemned(idle[0], SearchOn)];
      idle := idle[1..];
      history := history + [LookAndTake(t, healthy)];
    }

    method LoadLiveCount(t: Task) returns (seen: nat)
      requires Valid() && t in tasks && tasks[t].Checking?
      modifies this`tasks, this`history
      ensures Valid() && View() == Step(old(View()), LoadLive(t)) && history == old(history) + [LoadLive(t)]
      ensures seen == live
    {
      RunExtends(Init(max), history, LoadLive(t));
      seen := live;
      tasks := tasks[t := if live >= max then Asking else Claiming(live)];
      history := history + [LoadLive(t)];
    }

    method CompareExchangeLive(t: Task) returns (won: bool)
      requires Valid() && t in tasks && tasks[t].Claiming?
      modifies this
      ensures Valid() && View() == Step(old(View()), ClaimSlot(t)) && history == old(history) + [ClaimSlot(t)]
      ensures won == (old(live) == old(tasks)[t].seen)
    {
      RunExtends(Init(max), history, ClaimSlot(t));
      won := live == tasks[t].seen;
      if won {
        tasks := tasks[t := Dialing(created)];
        live, created := live + 1, created + 1;
      } else {
        tasks := tasks[t := Looking];
      }
      history := history + [ClaimSlot(t)];
    }

    method SemaphoreAcquire(t: Task) returns (granted: bool)
      requires Valid() && t in tasks && tasks[t].Asking?
      modifies this
      ensures Valid() && View() == Step(old(View()), AcquirePermit(t)) && history == old(history) + [AcquirePermit(t)]
      ensures granted == (old(permits) > 0)
    {
      RunExtends(Init(max), history, AcquirePermit(t));
      granted := permits > 0;
      if granted {
        permits := permits - 1;
        tasks := tasks[t := Looking];
      } else {
        tasks := tasks[t := Parked];
      }
      history := history + [AcquirePermit(t)];
    }

    method Connect(t: Task, ok: bool)
      requires Valid() && t in tasks && tasks[t].Dialing?
      modifies this`tasks, this`history
      ensures Valid() && View() == Step(old(View()), DialEnds(t, ok)) && history == old(history) + [DialEnds(t, ok)]
    {
      RunExtends(Init(max), history, DialEnds(t, ok));
      tasks := tasks[t := if ok then Holding(tasks[t].c) else Condemned(tasks[t].c, Leave)];
      history := history + [DialEnds(t, ok)];
    }

    method ExchangeDeadFlag(t: Task) returns (won: bool)
      requires Valid() && t in tasks && tasks[t].Condemned?
      modifies this
      ensures Valid() && View() == Step(old(View()), ExchangeFlag(t)) && history == old(history) + [ExchangeFlag(t)]
      ensures won == (old(tasks)[t].c !in old(dead))
    {
      RunExtends(Init(max), history, ExchangeFlag(t));
      var c, next := tasks[t].c, tasks[t].next;
      won := c !in dead;
      if won {
        dead := dead + {c};
        tasks := tasks[t := Retiring(c, next)];
      } else {
        tasks := if next.SearchOn? then tasks[t := Looking] else tasks - {t};
      }
      history := history + [ExchangeFlag(t)];
    }

    method FetchSubLive(t: Task)
      requires Valid() && t in tasks && tasks[t].Retiring?
      modifies this
      ensures Valid() && View() == Step(old(View()), Decrement(t)) && history == old(history) + [Decrement(t)]
      ensures live == old(live) - 1
    {
      RunExtends(Init(max), history, Decrement(t));
      NeverBelowZero(max, history, t);
      retired := retired + {tasks[t].c};
      live := live - 1;
      tasks := tasks[t := Signalling(tasks[t].next)];
      history := history + [Decrement(t)];
    }

    method SemaphoreRelease(t: Task, woken: Task)
      requires Valid() && Enabled(View(), ReleasePermit(t, woken))
      modifies this
      ensures Valid() && View() == Step(old(View()), ReleasePermit(t, woken))
      ensures history == old(history) + [ReleasePermit(t, woken)]
    {
      RunExtends(Init(max), history, ReleasePermit(t, woken));
      var next := tasks[t].next;
      if exists u | u in tasks :: tasks[u].Parked? {
        tasks := tasks[woken := Looking];
      } else {
        permits := permits + 1;
      }
      tasks := if next.SearchOn? then tasks[t := Looking] else tasks - {t};
      history := history + [ReleasePermit(t, woken)];
    }

    method TryEnqueue(t: Task)
      requires Valid() && t in tasks && tasks[t].Holding?
      modifies this
      ensures Valid() && View() == Step(old(View()), GiveBack(t, true)) && history == old(history) + [GiveBack(t, true)]
      ensures idle == old(idle) + [old(tasks)[t].c]  // there is always room
    {
      RunExtends(Init(max), history, GiveBack(t, true));
      ReleaseAlwaysFits(max, history, t);
      idle := idle + [tasks[t].c];
      tasks := tasks[t := Signalling(Leave)];
      history := history + [GiveBack(t, true)];
    }

    // ---------- the pool's methods ----------

    /** Releases the semaphore: one of the parked tasks, if any, is woken. */
    method Release(t: Task)
      requires Valid() && t in tasks && tasks[t].Signalling?
      modifies this
      ensures Valid() && Continues(old(history), history, t)
      ensures idle == old(idle) && live == old(live) && dead == old(dead) && created == old(created)
      ensures if old(tasks)[t].next.SearchOn? then t in tasks && tasks[t].Looking? else t !in tasks
      ensures permits == old(permits) + (if SomeoneParked(old(View())) then 0 else 1)
    {
      var woken := t;
      if exists u | u in tasks :: tasks[u].Parked? {
        woken :| woken in tasks && tasks[woken].Parked?;
      }
      SemaphoreRelease(t, woken);
    }

    /** mark_dead: the first call retires the connection, later calls change nothing. */
    method MarkDead(t: Task)
      requires Valid() && t in tasks && tasks[t].Condemned?
      modifies this
      ensures Valid() && Continues(old(history), history, t)
      ensures dead == old(dead) + {old(tasks)[t].c} && idle == old(idle)
      ensures live == old(live) - One(old(tasks)[t].c !in old(dead)) && created == old(created)
      ensures if old(tasks)[t].next.SearchOn? then t in tasks && tasks[t].Looking? else t !in tasks
    {
      var won := ExchangeDeadFlag(t);
      if won {
        FetchSubLive(t);
        Release(t);
      }
    }

    /** The first healthy idle connection; stale ones on the way are dropped. */
    method TakeIdle(t: Task, healthy: Conn -> bool) returns (c: Option<Conn>)
      requires Valid() && t in tasks && tasks[t].Looking?
      modifies this
      ensures Valid() && Continues(old(history), history, t) && t in tasks
      ensures c.None? ==> tasks[t].Checking? && idle == [] && forall d | d in old(idle) :: !healthy(d) && d in dead
      ensures c.Some? ==>
                && tasks[t] == Holding(c.value) && healthy(c.value)
                && exists i :: 0 <= i < |old(idle)| && IsFirst(old(idle), i, healthy) && old(idle)[i] == c.value && idle == old(idle)[i + 1..]
      ensures old(idle) == [] ==> permits == old(permits) && live == old(live)
      ensures created == old(created) && old(dead) <= dead
    {
      ghost var k := 0;
      while true
        invariant Valid() && Continues(old(history), history, t) && t in tasks && tasks[t].Looking?
        invariant 0 <= k <= |old(idle)| && idle == old(idle)[k..]
        invariant forall i | 0 <= i < k :: !healthy(old(idle)[i]) && old(idle)[i] in dead
        invariant k == 0 ==> permits == old(permits) && live == old(live)
        invariant created == old(created) && old(dead) <= dead
        decreases |idle|
      {
        var ok := if idle == [] then false else healthy(idle[0]);
        c := TryDequeue(t, ok);
        if c.None? {
          return;
        }
        if ok {
          assert IsFirst(old(idle), k, healthy);
          return;
        }
        MarkDead(t);
        k := k + 1;
      }
    }

    static ghost predicate IsFirst(q: seq<Conn>, i: nat, healthy: Conn -> bool)
      requires i < |q|
    {
      healthy(q[i]) && forall j | 0 <= j < i :: !healthy(q[j])
    }

    /** Claims the free slot seen and connects; a failed connect gives the slot back.
        When the counter has changed since it was seen, the search goes on. */
    method CreateConnection(t: Task, d: DialEnv) returns (r: Acquired)
      requires Valid() && t in tasks && tasks[t].Claiming?
      modifies this
      ensures Valid() && Continues(old(history), history, t)
      ensures old(dead) <= dead
      ensures old(tasks)[t].seen != old(live) ==> r == Beaten && t in tasks && tasks[t].Looking? && live == old(live)
      ensures old(tasks)[t].seen == old(live) && Connects(d) ==>
                r == Got(old(created)) && t in tasks && tasks[t] == Holding(old(created)) && live == old(live) + 1
      ensures old(tasks)[t].seen == old(live) && !Connects(d) ==> r == Failed && t !in tasks && live == old(live)
    {
      var won := CompareExchangeLive(t);
      if !won {
        return Beaten;
      }
      HeldIsNotDead(t);
      var ok := Dial(d);
      Connect(t, ok);
      if ok {
        r := Got(tasks[t].c);
      } else {
        MarkDead(t);
        r := Failed;
      }
    }

    lemma HeldIsNotDead(t: Task)
      requires Valid() && t in tasks && (tasks[t].Dialing? || tasks[t].Holding?)
      ensures tasks[t].c !in dead
    {
      HeldIsAlive(max, history, t);
    }

    static ghost predicate NoneHealthy(q: seq<Conn>, healthy: Conn -> bool) { forall i | 0 <= i < |q| :: !healthy(q[i]) }

    /** c is the first healthy one of q. */
    static ghost predicate FirstHealthy(q: seq<Conn>, healthy: Conn -> bool, c: Conn) {
      exists i | 0 <= i < |q| :: q[i] == c && healthy(c) && forall j | 0 <= j < i :: !healthy(q[j])
    }

    /** acquire_connection, from its entry to the connection, the failure or the park: the
        first healthy idle connection, and only without one a new connection. */
    method AcquireConnection(t: Task, healthy: Conn -> bool, d: DialEnv) returns (r: Acquired)
      requires Valid() && t in tasks && tasks[t].Looking?
      modifies this
      ensures Valid() && Continues(old(history), history, t)
      ensures r.Got? ==> t in tasks && tasks[t] == Holding(r.c)
      ensures !NoneHealthy(old(idle), healthy) ==> r.Got? && FirstHealthy(old(idle), healthy, r.c)
      ensures NoneHealthy(old(idle), healthy) && r.Got? ==> Connects(d) && r.c == old(created)
      ensures NoneHealthy(old(idle), healthy) ==> forall c | c in old(idle) :: c in dead
      ensures r.Failed? ==> !Connects(d) && t !in tasks
      ensures !r.Beaten?  // nobody else moves while this call runs
      ensures r.Suspended? ==> t in tasks && tasks[t].Parked? && idle == [] && live == max && permits == 0
    {
      while true
        invariant Valid() && Continues(old(history), history, t) && t in tasks && tasks[t].Looking?
        invariant idle == old(idle) || (idle == [] && NoneHealthy(old(idle), healthy))
        invariant idle != old(idle) ==> forall c | c in old(idle) :: c in dead
        invariant created == old(created)
        decreases |idle|, permits
      {
        ghost var before := idle;
        var c := TakeIdle(t, healthy);
        if c.Some? {
          return Got(c.value);
        }
        var seen := LoadLiveCount(t);
        if seen >= max {
          WithinMax();
          var granted := SemaphoreAcquire(t);
          if !granted {
            return Suspended;
          }
        } else {
          r := CreateConnection(t, d);
          return;
        }
      }
    }

    lemma WithinMax()
      requires Valid()
      ensures live <= max
    {
      Conservation(max, history);
    }

    /** release_connection: a healthy connection goes back to the idle queue. */
    method ReleaseConnection(t: Task, healthy: bool)
      requires Valid() && t in tasks && tasks[t].Holding?
      modifies this
      ensures Valid() && Continues(old(history), history, t) && t !in tasks
      ensures healthy ==> idle == old(idle) + [old(tasks)[t].c] && live == old(live)
      ensures !healthy ==> idle == old(idle) && old(tasks)[t].c in dead && live == old(live) - 1
    {
      HeldIsNotDead(t);
      if healthy {
        TryEnqueue(t);
        Release(t);
      } else {
        RunExtends(Init(max), history, GiveBack(t, false));
        tasks := tasks[t := Condemned(tasks[t].c, Leave)];
        history := history + [GiveBack(t, false)];
        MarkDead(t);
      }
    }
  }
}
