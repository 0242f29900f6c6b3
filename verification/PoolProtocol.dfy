/** The connection pool as concurrent tasks over its shared words: the idle
    queue, the live counter, the per-connection dead flag and the semaphore.

    Each event is one atomic operation of one task (a queue operation, a load,
    a compare-exchange, a semaphore operation); which task moves next, whether a
    connection turns out healthy and which parked task a release wakes are
    choices of the environment. */
module PoolProtocol {

  const SIZE_MAX: nat := 0xFFFF_FFFF_FFFF_FFFF

  type Task = nat
  type Conn = nat

  /** What a task does after mark_dead: go on searching, or leave the pool code. */
  datatype Next = SearchOn | Leave

  datatype Pc =
    | Looking                          // about to dequeue from the idle queue
    | Checking                         // saw it empty, about to load the live counter
    | Claiming(seen: nat)              // saw a free slot, about to compare-exchange it
    | Asking                           // saw no free slot, about to acquire the semaphore
    | Parked                           // waiting on the semaphore
    | Dialing(c: Conn)                 // connecting a connection it created
    | Holding(c: Conn)                 // owns a connection, outside the pool code
    | Condemned(c: Conn, next: Next)   // mark_dead called, about to exchange the dead flag
    | Retiring(c: Conn, next: Next)    // won the flag, about to decrement the counter
    | Signalling(next: Next)           // gave a connection or a slot back, about to release the semaphore

  datatype State = State(
    max: nat,
    idle: seq<Conn>,
    live: nat,
    permits: nat,
    tasks: map<Task, Pc>,
    created: nat,        // connections made so far: their ids are the numbers below
    dead: set<Conn>,     // dead_accounted_ is set
    retired: set<Conn>)  // history: the counter was decremented for it

  function Init(max: nat): State { State(max, [], 0, 0, map[], 0, {}, {}) }

  datatype Event =
    | Enter(t: Task)
    | LookAndTake(t: Task, healthy: bool)
    | LookAndMiss(t: Task, again: bool)
    | LoadLive(t: Task)
    | ClaimSlot(t: Task)
    | AcquirePermit(t: Task)
    | CancelWait(t: Task)
    | DialEnds(t: Task, ok: bool)
    | GiveBack(t: Task, healthy: bool)
    | MarkDeadAgain(t: Task, c: Conn)
    | ExchangeFlag(t: Task)
    | Decrement(t: Task)
    | ReleasePermit(t: Task, woken: Task)

  // ---------- the steps ----------

  function Goto(s: State, t: Task, pc: Pc): State { s.(tasks := s.tasks[t := pc]) }

  function Proceed(s: State, t: Task, next: Next): State {
    if next.SearchOn? then Goto(s, t, Looking) else s.(tasks := s.tasks - {t})
  }

  predicate SomeoneParked(s: State) {
    exists t | t in s.tasks :: s.tasks[t].Parked?
  }

  /** mark_dead was called on c, by a task that has not reached the dead flag yet. */
  predicate SomeoneCondemned(s: State, c: Conn) {
    exists t | t in s.tasks :: s.tasks[t].Condemned? && s.tasks[t].c == c
  }

  predicate Enabled(s: State, e: Event) {
    match e
    case Enter(t) => t !in s.tasks
    case LookAndTake(t, _) => t in s.tasks && s.tasks[t].Looking? && s.idle != []
    case LookAndMiss(t, _) => t in s.tasks && s.tasks[t].Looking? && s.idle == []
    case LoadLive(t) => t in s.tasks && s.tasks[t].Checking?
    case ClaimSlot(t) => t in s.tasks && s.tasks[t].Claiming?
    case AcquirePermit(t) => t in s.tasks && s.tasks[t].Asking?
    case CancelWait(t) => t in s.tasks && (s.tasks[t].Asking? || s.tasks[t].Parked?)
    case DialEnds(t, _) => t in s.tasks && s.tasks[t].Dialing?
    case GiveBack(t, _) => t in s.tasks && s.tasks[t].Holding?
    case MarkDeadAgain(t, c) => t !in s.tasks && (c in s.dead || SomeoneCondemned(s, c))
    case ExchangeFlag(t) => t in s.tasks && s.tasks[t].Condemned?
    case Decrement(t) => t in s.tasks && s.tasks[t].Retiring?
    case ReleasePermit(t, w) =>
      && t in s.tasks && s.tasks[t].Signalling?
      && (SomeoneParked(s) ==> w in s.tasks && s.tasks[w].Parked?)
  }

  function Step(s: State, e: Event): State
    requires Enabled(s, e)
  {
    match e
    case Enter(t) => Goto(s, t, Looking)
    case LookAndTake(t, healthy) =>
      var rest := s.(idle := s.idle[1..]);
      if healthy then Goto(rest, t, Holding(s.idle[0])) else Goto(rest, t, Condemned(s.idle[0], SearchOn))
    case LookAndMiss(t, again) => Goto(s, t, if again then Looking else Checking)
    case LoadLive(t) => Goto(s, t, if s.live >= s.max then Asking else Claiming(s.live))
    case ClaimSlot(t) =>
      if s.live == s.tasks[t].seen then
        Goto(s.(live := s.live + 1, created := s.created + 1), t, Dialing(s.created))
      else Goto(s, t, Looking)
    case AcquirePermit(t) =>
      if s.permits > 0 then Goto(s.(permits := s.permits - 1), t, Looking) else Goto(s, t, Parked)
    case CancelWait(t) => s.(tasks := s.tasks - {t})
    case DialEnds(t, ok) => Goto(s, t, if ok then Holding(s.tasks[t].c) else Condemned(s.tasks[t].c, Leave))
    case GiveBack(t, healthy) =>
      var c := s.tasks[t].c;
      if healthy && |s.idle| < s.max then Goto(s.(idle := s.idle + [c]), t, Signalling(Leave))
      else Goto(s, t, Condemned(c, Leave))
    case MarkDeadAgain(t, c) => Goto(s, t, Condemned(c, Leave))
    case ExchangeFlag(t) =>
      var c := s.tasks[t].c;
      if c in s.dead then Proceed(s, t, s.tasks[t].next)
      else Goto(s.(dead := s.dead + {c}), t, Retiring(c, s.tasks[t].next))
    case Decrement(t) =>
      var live := if s.live == 0 then SIZE_MAX else s.live - 1;  // fetch_sub on a size_t
      Goto(s.(live := live, retired := s.retired + {s.tasks[t].c}), t, Signalling(s.tasks[t].next))
    case ReleasePermit(t, w) =>
      if SomeoneParked(s) then Proceed(Goto(s, w, Looking), t, s.tasks[t].next)
      else Proceed(s.(permits := s.permits + 1), t, s.tasks[t].next)
  }

  ghost predicate IsRun(s: State, events: seq<Event>)
    decreases |events|
  {
    events == [] || (Enabled(s, events[0]) && IsRun(Step(s, events[0]), events[1..]))
  }

  ghost function After(s: State, events: seq<Event>): State
    requires IsRun(s, events)
    decreases |events|
  {
    if events == [] then s else After(Step(s, events[0]), events[1..])
  }

  lemma {:induction false} RunExtends(s: State, events: seq<Event>, e: Event)
    requires IsRun(s, events) && Enabled(After(s, events), e)
    ensures IsRun(s, events + [e]) && After(s, events + [e]) == Step(After(s, events), e)
    decreases |events|
  {
    if events == [] {
      assert events + [e] == [e] && [e][1..] == [];
      assert IsRun(Step(s, e), []);
    } else {
      RunExtends(Step(s, events[0]), events[1..], e);
      assert (events + [e])[1..] == events[1..] + [e];
    }
  }

  // ---------- who owns what ----------

  /** The task's program counter makes it alone responsible for connection c. */
  predicate Owns(pc: Pc, c: Conn) {
    match pc
    case Dialing(d) => c == d
    case Holding(d) => c == d
    case Retiring(d, _) => c == d
    case _ => false
  }

  /** The task called mark_dead on c and may still win its flag; several tasks may. */
  predicate Dooms(pc: Pc, c: Conn, dead: set<Conn>) {
    pc.Condemned? && pc.c == c && c !in dead
  }

  predicate NoRepeats(q: seq<Conn>) {
    forall i, j | 0 <= i < j < |q| :: q[i] != q[j]
  }

  /** Doomed names one of the tasks that called mark_dead; With names the only owner. */
  datatype Place = InIdle | With(t: Task) | Doomed(marker: Task) | Retired

  /** `at` gives every connection ever created its one place, and everything that
      refers to a connection agrees with it. */
  ghost predicate Placed(s: State, at: map<Conn, Place>) {
    && NoRepeats(s.idle)
    && (forall c: Conn :: c in at <==> c < s.created)
    && (forall c | c in s.idle :: c in at && at[c] == InIdle)
    && (forall t: Task, c: Conn | t in s.tasks && Owns(s.tasks[t], c) :: c in at && at[c] == With(t))
    && (forall t: Task, c: Conn | t in s.tasks && Dooms(s.tasks[t], c, s.dead) :: c in at && at[c].Doomed?)
    && (forall c | c in at :: PlaceOk(s, c, at[c]))
  }

  ghost predicate PlaceOk(s: State, c: Conn, p: Place) {
    match p
    case InIdle => c in s.idle && c !in s.dead && c !in s.retired
    case With(t) => t in s.tasks && Owns(s.tasks[t], c) && c !in s.retired && (c in s.dead <==> s.tasks[t].Retiring?)
    case Doomed(t) => t in s.tasks && Dooms(s.tasks[t], c, s.dead) && c !in s.retired
    case Retired => c in s.retired && c in s.dead
  }

  /** The counter counts the connections created and not retired. */
  ghost predicate Counted(s: State) {
    && s.live + |s.retired| == s.created
    && s.live <= s.max
    && s.retired <= s.dead
    && (forall c | c in s.dead :: c < s.created)
  }

  // ---------- wake-ups ----------

  predicate LooksLater(pc: Pc) { pc.Looking? || pc.Signalling? }

  predicate LooksOrCountsLater(pc: Pc) { LooksLater(pc) || pc.Checking? || pc.Claiming? }

  function One(b: bool): nat { if b then 1 else 0 }

  /** Tasks that will look at the idle queue, or release a permit that makes one look. */
  ghost function WillLook(s: State): set<Task> {
    set t | t in s.tasks && LooksLater(s.tasks[t])
  }

  /** Those, and the tasks that will still look at the live counter. */
  ghost function WillLookOrCount(s: State): set<Task> {
    set t | t in s.tasks && LooksOrCountsLater(s.tasks[t])
  }

  ghost predicate SomeoneWaits(s: State) {
    exists t :: t in s.tasks && (s.tasks[t].Asking? || s.tasks[t].Parked?)
  }

  /** Idle connections are matched by permits and tasks on their way to look; once
      a task has given up, free slots are matched as well. */
  ghost predicate Matched(s: State) {
    && |s.idle| <= s.permits + |WillLook(s)|
    && (SomeoneWaits(s) ==> |s.idle| + s.max - s.live <= s.permits + |WillLookOrCount(s)|)
    && (SomeoneParked(s) ==> s.permits == 0)
  }

  ghost predicate Inv(s: State) {
    Counted(s) && Matched(s) && exists at :: Placed(s, at)
  }

  // ---------- counting tasks ----------

  lemma MemberMoves(a: set<Task>, t: Task, stays: bool)
    ensures |if stays then a + {t} else a - {t}| == |a| - One(t in a) + One(stays)
  {
    if t in a {
      assert a + {t} == a;
      assert (a - {t}) + {t} == a;
    } else {
      assert a - {t} == a;
    }
  }

  lemma LookersAfterGoto(s: State, t: Task, pc: Pc)
    ensures WillLook(Goto(s, t, pc)) == if LooksLater(pc) then WillLook(s) + {t} else WillLook(s) - {t}
  {}

  lemma CountersAfterGoto(s: State, t: Task, pc: Pc)
    ensures WillLookOrCount(Goto(s, t, pc))
         == if LooksOrCountsLater(pc) then WillLookOrCount(s) + {t} else WillLookOrCount(s) - {t}
  {}

  /** How one task's move changes the two counts. */
  lemma CountsAfterGoto(s: State, t: Task, pc: Pc)
    ensures |WillLook(Goto(s, t, pc))| == |WillLook(s)| - One(t in WillLook(s)) + One(LooksLater(pc))
    ensures |WillLookOrCount(Goto(s, t, pc))|
         == |WillLookOrCount(s)| - One(t in WillLookOrCount(s)) + One(LooksOrCountsLater(pc))
  {
    LookersAfterGoto(s, t, pc);
    CountersAfterGoto(s, t, pc);
    MemberMoves(WillLook(s), t, LooksLater(pc));
    MemberMoves(WillLookOrCount(s), t, LooksOrCountsLater(pc));
  }

  lemma CountsAfterLeave(s: State, t: Task)
    ensures |WillLook(s.(tasks := s.tasks - {t}))| == |WillLook(s)| - One(t in WillLook(s))
    ensures |WillLookOrCount(s.(tasks := s.tasks - {t}))| == |WillLookOrCount(s)| - One(t in WillLookOrCount(s))
  {
    var g := s.(tasks := s.tasks - {t});
    MemberMoves(WillLook(s), t, false);
    MemberMoves(WillLookOrCount(s), t, false);
    assert WillLook(g) == WillLook(s) - {t};
    assert WillLookOrCount(g) == WillLookOrCount(s) - {t};
  }

  lemma LookersAreCounted(s: State)
    ensures |WillLook(s)| <= |WillLookOrCount(s)|
  {
    assert WillLookOrCount(s) == WillLook(s) + (WillLookOrCount(s) - WillLook(s));
  }

  /** A task that neither waits before nor after does not change who waits. */
  lemma WaitersAfterGoto(s: State, t: Task, pc: Pc)
    ensures SomeoneWaits(Goto(s, t, pc)) ==> SomeoneWaits(s) || pc.Asking? || pc.Parked?
    ensures SomeoneParked(Goto(s, t, pc)) ==> SomeoneParked(s) || pc.Parked?
  {
    var g := Goto(s, t, pc);
    if SomeoneWaits(g) && !pc.Asking? && !pc.Parked? {
      var u :| u in g.tasks && (g.tasks[u].Asking? || g.tasks[u].Parked?);
      assert u in s.tasks;
    }
    if SomeoneParked(g) && !pc.Parked? {
      var u :| u in g.tasks && g.tasks[u].Parked?;
      assert u in s.tasks;
    }
  }

  lemma WaitersAfterLeave(s: State, t: Task)
    ensures SomeoneWaits(s.(tasks := s.tasks - {t})) ==> SomeoneWaits(s)
    ensures SomeoneParked(s.(tasks := s.tasks - {t})) ==> SomeoneParked(s)
  {
    var g := s.(tasks := s.tasks - {t});
    if SomeoneWaits(g) {
      var u :| u in g.tasks && (g.tasks[u].Asking? || g.tasks[u].Parked?);
      assert u in s.tasks;
    }
    if SomeoneParked(g) {
      var u :| u in g.tasks && g.tasks[u].Parked?;
      assert u in s.tasks;
    }
  }

  /** A move of a task that does not go to wait: what it adds to the idle
      connections and the free slots is covered by permits and by what it will
      still look at. */
  lemma MatchedAfterMove(s: State, base: State, t: Task, pc: Pc)
    requires Matched(s) && base.tasks == s.tasks && base.max == s.max
    requires !pc.Parked? && !pc.Asking? && (SomeoneParked(s) ==> base.permits == 0)
    requires |base.idle| - |s.idle| <= base.permits - s.permits + One(LooksLater(pc)) - One(t in WillLook(s))
    requires |base.idle| - |s.idle| + s.live - base.live
          <= base.permits - s.permits + One(LooksOrCountsLater(pc)) - One(t in WillLookOrCount(s))
    ensures Matched(Goto(base, t, pc))
  {
    CountsAfterGoto(base, t, pc);
    WaitersAfterGoto(base, t, pc);
    assert WillLook(base) == WillLook(s) && WillLookOrCount(base) == WillLookOrCount(s);
    assert SomeoneWaits(base) == SomeoneWaits(s) && SomeoneParked(base) == SomeoneParked(s);
  }

  /** Giving up on a free slot: at that moment there is none, so the idle
      connections alone have to be matched, and they are. */
  lemma MatchedAfterGivingUp(s: State, t: Task)
    requires Matched(s) && t in s.tasks && s.tasks[t].Checking? && s.live == s.max
    ensures Matched(Goto(s, t, Asking))
  {
    CountsAfterGoto(s, t, Asking);
    WaitersAfterGoto(s, t, Asking);
    LookersAreCounted(Goto(s, t, Asking));
  }

  lemma MatchedAfterParking(s: State, t: Task)
    requires Matched(s) && t in s.tasks && s.tasks[t].Asking? && s.permits == 0
    ensures Matched(Goto(s, t, Parked))
  {
    CountsAfterGoto(s, t, Parked);
    assert SomeoneWaits(s);
  }

  lemma MatchedAfterLeave(s: State, base: State, t: Task)
    requires Matched(s) && base.tasks == s.tasks && base.max == s.max && base.idle == s.idle && base.live == s.live
    requires s.permits + One(t in WillLook(s)) <= base.permits && s.permits + One(t in WillLookOrCount(s)) <= base.permits
    requires SomeoneParked(s) ==> base.permits == 0
    ensures Matched(base.(tasks := s.tasks - {t}))
  {
    CountsAfterLeave(base, t);
    WaitersAfterLeave(base, t);
    assert WillLook(base) == WillLook(s) && WillLookOrCount(base) == WillLookOrCount(s);
    assert SomeoneWaits(base) == SomeoneWaits(s) && SomeoneParked(base) == SomeoneParked(s);
  }

  /** A release wakes one parked task, which will look, or leaves a permit. */
  lemma MatchedAfterRelease(s: State, t: Task, w: Task)
    requires Matched(s) && Enabled(s, ReleasePermit(t, w))
    ensures Matched(Step(s, ReleasePermit(t, w)))
  {
    var next := s.tasks[t].next;
    if SomeoneParked(s) {
      var woken := Goto(s, w, Looking);
      CountsAfterGoto(s, w, Looking);
      WaitersAfterGoto(s, w, Looking);
      assert SomeoneWaits(s) by { assert s.tasks[w].Parked?; }
      if next.SearchOn? {
        CountsAfterGoto(woken, t, Looking);
        WaitersAfterGoto(woken, t, Looking);
      } else {
        CountsAfterLeave(woken, t);
        WaitersAfterLeave(woken, t);
      }
    } else if next.SearchOn? {
      MatchedAfterMove(s, s.(permits := s.permits + 1), t, Looking);
    } else {
      MatchedAfterLeave(s, s.(permits := s.permits + 1), t);
    }
  }

  predicate Searches(e: Event) {
    e.Enter? || e.LookAndTake? || e.LookAndMiss? || e.LoadLive? || e.ClaimSlot? || e.AcquirePermit?
  }

  lemma MatchedSearch(s: State, e: Event)
    requires Matched(s) && Counted(s) && Enabled(s, e) && Searches(e)
    ensures Matched(Step(s, e))
  {
    match e
    case Enter(t) => MatchedAfterMove(s, s, t, Looking);
    case LookAndTake(t, healthy) =>
      MatchedAfterMove(s, s.(idle := s.idle[1..]), t, if healthy then Holding(s.idle[0]) else Condemned(s.idle[0], SearchOn));
    case LookAndMiss(t, again) =>
      if again { MatchedAfterMove(s, s, t, Looking); } else { MissedNothing(s, t); }
    case LoadLive(t) =>
      if s.live >= s.max { MatchedAfterGivingUp(s, t); } else { MatchedAfterMove(s, s, t, Claiming(s.live)); }
    case ClaimSlot(t) =>
      if s.live == s.tasks[t].seen {
        MatchedAfterMove(s, s.(live := s.live + 1, created := s.created + 1), t, Dialing(s.created));
      } else { MatchedAfterMove(s, s, t, Looking); }
    case AcquirePermit(t) =>
      if s.permits > 0 { MatchedAfterMove(s, s.(permits := s.permits - 1), t, Looking); }
      else { MatchedAfterParking(s, t); }
  }

  lemma MatchedReturn(s: State, e: Event)
    requires Matched(s) && Enabled(s, e) && !Searches(e)
    requires e.Decrement? ==> s.live > 0
    ensures Matched(Step(s, e))
  {
    match e
    case CancelWait(t) => MatchedAfterLeave(s, s, t);
    case DialEnds(t, ok) =>
      MatchedAfterMove(s, s, t, if ok then Holding(s.tasks[t].c) else Condemned(s.tasks[t].c, Leave));
    case GiveBack(t, healthy) =>
      if healthy && |s.idle| < s.max {
        MatchedAfterMove(s, s.(idle := s.idle + [s.tasks[t].c]), t, Signalling(Leave));
      } else { MatchedAfterMove(s, s, t, Condemned(s.tasks[t].c, Leave)); }
    case MarkDeadAgain(t, c) => MatchedAfterMove(s, s, t, Condemned(c, Leave));
    case ExchangeFlag(t) =>
      var c, next := s.tasks[t].c, s.tasks[t].next;
      if c !in s.dead { MatchedAfterMove(s, s.(dead := s.dead + {c}), t, Retiring(c, next)); }
      else if next.SearchOn? { MatchedAfterMove(s, s, t, Looking); }
      else { MatchedAfterLeave(s, s, t); }
    case Decrement(t) =>
      MatchedAfterMove(s, s.(live := s.live - 1, retired := s.retired + {s.tasks[t].c}), t, Signalling(s.tasks[t].next));
    case ReleasePermit(t, w) => MatchedAfterRelease(s, t, w);
  }

  /** A task that saw the idle queue empty still looks at the counter. */
  lemma MissedNothing(s: State, t: Task)
    requires Matched(s) && t in s.tasks && s.tasks[t].Looking? && s.idle == []
    ensures Matched(Goto(s, t, Checking))
  {
    CountsAfterGoto(s, t, Checking);
    WaitersAfterGoto(s, t, Checking);
  }

  // ---------- places ----------

  /** Where the connections are after a step. */
  ghost function Moves(s: State, at: map<Conn, Place>, e: Event): map<Conn, Place>
    requires Enabled(s, e)
  {
    match e
    case LookAndTake(t, healthy) => at[s.idle[0] := if healthy then With(t) else Doomed(t)]
    case ClaimSlot(t) => if s.live == s.tasks[t].seen then at[s.created := With(t)] else at
    case DialEnds(t, ok) => if ok then at else at[s.tasks[t].c := Doomed(t)]
    case GiveBack(t, healthy) =>
      at[s.tasks[t].c := if healthy && |s.idle| < s.max then InIdle else Doomed(t)]
    case ExchangeFlag(t) => if s.tasks[t].c in s.dead then at else at[s.tasks[t].c := With(t)]
    case Decrement(t) => at[s.tasks[t].c := Retired]
    case _ => at
  }

  /** t moves on without taking or giving up a connection. */
  lemma PlacedAfterMove(s: State, base: State, at: map<Conn, Place>, t: Task, pc: Pc)
    requires Placed(s, at) && base.tasks == s.tasks && base.dead == s.dead && base.retired == s.retired
    requires base.created == s.created && base.idle == s.idle
    requires forall c: Conn :: Owns(pc, c) <==> t in s.tasks && Owns(s.tasks[t], c)
    requires forall c: Conn | t in s.tasks :: !Dooms(s.tasks[t], c, s.dead)
    requires forall c: Conn | Dooms(pc, c, s.dead) :: c in at && at[c].Doomed?
    requires !pc.Retiring? && (t in s.tasks ==> !s.tasks[t].Retiring?)
    ensures Placed(Goto(base, t, pc), at)
  {
    forall c | c in at
      ensures PlaceOk(Goto(base, t, pc), c, at[c])
    {
      assert PlaceOk(s, c, at[c]);
    }
  }

  lemma PlacedAfterLeave(s: State, base: State, at: map<Conn, Place>, t: Task)
    requires Placed(s, at) && base.tasks == s.tasks && base.dead == s.dead && base.retired == s.retired
    requires base.created == s.created && base.idle == s.idle
    requires forall c: Conn | t in s.tasks :: !Owns(s.tasks[t], c) && !Dooms(s.tasks[t], c, s.dead)
    ensures Placed(base.(tasks := s.tasks - {t}), at)
  {
    forall c | c in at
      ensures PlaceOk(base.(tasks := s.tasks - {t}), c, at[c])
    {
      assert PlaceOk(s, c, at[c]);
    }
  }

  /** Between s and g nothing changes for the connections other than d. */
  ghost predicate OthersStay(s: State, g: State, d: Conn) {
    forall c: Conn | c != d ::
      (c in g.idle <==> c in s.idle) && (c in g.dead <==> c in s.dead) && (c in g.retired <==> c in s.retired)
  }

  /** A task at pc has to do with no connection other than d. */
  predicate OnlyAbout(pc: Pc, d: Conn) {
    (pc.Dialing? || pc.Holding? || pc.Condemned? || pc.Retiring?) ==> pc.c == d
  }

  /** Whoever has to do with d, apart from t, may only have called mark_dead on it. */
  ghost predicate OthersLeaveAlone(s: State, g: State, t: Task, d: Conn, p: Place) {
    forall u | u in s.tasks && u != t :: !Owns(s.tasks[u], d) && (Dooms(s.tasks[u], d, g.dead) ==> p.Doomed?)
  }

  /** Task t moves connection d, and nothing else, to its new place. */
  lemma PlacedAfterTransfer(s: State, at: map<Conn, Place>, g: State, t: Task, d: Conn, p: Place)
    requires Placed(s, at) && t in g.tasks && g.tasks == s.tasks[t := g.tasks[t]] && NoRepeats(g.idle)
    requires forall c: Conn :: c in at || c == d <==> c < g.created
    requires OthersStay(s, g, d) && OthersLeaveAlone(s, g, t, d, p)
    requires OnlyAbout(g.tasks[t], d) && (t in s.tasks ==> OnlyAbout(s.tasks[t], d))
    requires d in g.idle <==> p == InIdle
    requires Owns(g.tasks[t], d) <==> p == With(t)
    requires Dooms(g.tasks[t], d, g.dead) ==> p.Doomed?
    requires PlaceOk(g, d, p)
    ensures Placed(g, at[d := p])
  {
    forall c | c in at && c != d
      ensures PlaceOk(g, c, at[c])
    {
      assert PlaceOk(s, c, at[c]);
    }
  }

  /** A connection leaves the idle queue for a task. */
  lemma PlacedAfterTake(s: State, at: map<Conn, Place>, e: Event)
    requires Placed(s, at) && Enabled(s, e) && e.LookAndTake?
    ensures Placed(Step(s, e), Moves(s, at, e))
  {
    var taken := s.idle[0];
    var g := Step(s, e);
    assert taken in s.idle && PlaceOk(s, taken, at[taken]);
    assert s.idle == [taken] + g.idle;
    assert taken !in g.idle;
    PlacedAfterTransfer(s, at, g, e.t, taken, if e.healthy then With(e.t) else Doomed(e.t));
  }

  /** The only owner calls mark_dead. */
  lemma PlacedAfterCondemning(s: State, at: map<Conn, Place>, t: Task, next: Next)
    requires Placed(s, at) && t in s.tasks && (s.tasks[t].Dialing? || s.tasks[t].Holding?)
    ensures Placed(Goto(s, t, Condemned(s.tasks[t].c, next)), at[s.tasks[t].c := Doomed(t)])
  {
    var d := s.tasks[t].c;
    assert Owns(s.tasks[t], d) && PlaceOk(s, d, at[d]);
    PlacedAfterTransfer(s, at, Goto(s, t, Condemned(d, next)), t, d, Doomed(t));
  }

  /** A new connection belongs to the task that claimed its slot. */
  lemma PlacedAfterClaim(s: State, at: map<Conn, Place>, e: Event)
    requires Placed(s, at) && Counted(s) && Enabled(s, e) && e.ClaimSlot? && s.live == s.tasks[e.t].seen
    ensures Placed(Step(s, e), Moves(s, at, e))
  {
    assert s.created !in s.dead && s.created !in s.retired && s.created !in at;
    PlacedAfterTransfer(s, at, Step(s, e), e.t, s.created, With(e.t));
  }

  /** A connection returns from its holder to the idle queue. */
  lemma PlacedAfterGiveBack(s: State, at: map<Conn, Place>, e: Event)
    requires Placed(s, at) && Enabled(s, e) && e.GiveBack? && e.healthy && |s.idle| < s.max
    ensures Placed(Step(s, e), Moves(s, at, e))
  {
    var given := s.tasks[e.t].c;
    assert Owns(s.tasks[e.t], given) && PlaceOk(s, given, at[given]);
    assert given !in s.idle;
    PlacedAfterTransfer(s, at, Step(s, e), e.t, given, InIdle);
  }

  /** Of the tasks that called mark_dead one wins the flag, and is the only owner from then on. */
  lemma PlacedAfterFlag(s: State, at: map<Conn, Place>, e: Event)
    requires Placed(s, at) && Enabled(s, e) && e.ExchangeFlag? && s.tasks[e.t].c !in s.dead
    ensures Placed(Step(s, e), Moves(s, at, e))
  {
    var d := s.tasks[e.t].c;
    assert Dooms(s.tasks[e.t], d, s.dead) && PlaceOk(s, d, at[d]);
    PlacedAfterTransfer(s, at, Step(s, e), e.t, d, With(e.t));
  }

  lemma PlacedAfterDecrement(s: State, at: map<Conn, Place>, e: Event)
    requires Placed(s, at) && Enabled(s, e) && e.Decrement?
    ensures Placed(Step(s, e), Moves(s, at, e))
  {
    var d := s.tasks[e.t].c;
    assert Owns(s.tasks[e.t], d) && PlaceOk(s, d, at[d]);
    PlacedAfterTransfer(s, at, Step(s, e), e.t, d, Retired);
  }

  lemma PlacedAfterRelease(s: State, at: map<Conn, Place>, t: Task, w: Task)
    requires Placed(s, at) && Enabled(s, ReleasePermit(t, w))
    ensures Placed(Step(s, ReleasePermit(t, w)), at)
  {
    if SomeoneParked(s) {
      var woken := Goto(s, w, Looking);
      PlacedAfterMove(s, s, at, w, Looking);
      if s.tasks[t].next.SearchOn? { PlacedAfterMove(woken, woken, at, t, Looking); }
      else { PlacedAfterLeave(woken, woken, at, t); }
    } else {
      var base := s.(permits := s.permits + 1);
      if s.tasks[t].next.SearchOn? { PlacedAfterMove(s, base, at, t, Looking); }
      else { PlacedAfterLeave(s, base, at, t); }
    }
  }

  lemma PlacedSearch(s: State, at: map<Conn, Place>, e: Event)
    requires Placed(s, at) && Counted(s) && Enabled(s, e) && Searches(e)
    ensures Placed(Step(s, e), Moves(s, at, e))
  {
    match e
    case Enter(t) => PlacedAfterMove(s, s, at, t, Looking);
    case LookAndTake(t, healthy) => PlacedAfterTake(s, at, e);
    case LookAndMiss(t, again) => PlacedAfterMove(s, s, at, t, if again then Looking else Checking);
    case LoadLive(t) => PlacedAfterMove(s, s, at, t, if s.live >= s.max then Asking else Claiming(s.live));
    case ClaimSlot(t) =>
      if s.live == s.tasks[t].seen { PlacedAfterClaim(s, at, e); } else { PlacedAfterMove(s, s, at, t, Looking); }
    case AcquirePermit(t) =>
      if s.permits > 0 { PlacedAfterMove(s, s.(permits := s.permits - 1), at, t, Looking); }
      else { PlacedAfterMove(s, s, at, t, Parked); }
  }

  lemma PlacedReturn(s: State, at: map<Conn, Place>, e: Event)
    requires Placed(s, at) && Counted(s) && Enabled(s, e) && !Searches(e)
    ensures Placed(Step(s, e), Moves(s, at, e))
  {
    match e
    case CancelWait(t) => PlacedAfterLeave(s, s, at, t);
    case DialEnds(t, ok) =>
      if ok { PlacedAfterMove(s, s, at, t, Holding(s.tasks[t].c)); } else { PlacedAfterCondemning(s, at, t, Leave); }
    case GiveBack(t, healthy) =>
      if healthy && |s.idle| < s.max { PlacedAfterGiveBack(s, at, e); } else { PlacedAfterCondemning(s, at, t, Leave); }
    case MarkDeadAgain(t, c) =>
      if c !in s.dead {
        var u :| u in s.tasks && s.tasks[u].Condemned? && s.tasks[u].c == c;
        assert Dooms(s.tasks[u], c, s.dead);
      }
      PlacedAfterMove(s, s, at, t, Condemned(c, Leave));
    case ExchangeFlag(t) =>
      if s.tasks[t].c !in s.dead { PlacedAfterFlag(s, at, e); }
      else if s.tasks[t].next.SearchOn? { PlacedAfterMove(s, s, at, t, Looking); }
      else { PlacedAfterLeave(s, s, at, t); }
    case Decrement(t) => PlacedAfterDecrement(s, at, e);
    case ReleasePermit(t, w) => PlacedAfterRelease(s, at, t, w);
  }

  // ---------- the counter ----------

  lemma {:induction false} BelowCardinality(a: set<nat>, n: nat)
    requires forall x | x in a :: x < n
    ensures |a| <= n
  {
    if n > 0 { BelowCardinality(a - {n - 1}, n - 1); }
  }

  /** A connection about to be retired is still counted. */
  lemma RetiringIsCounted(s: State, at: map<Conn, Place>, t: Task)
    requires Placed(s, at) && Counted(s) && t in s.tasks && s.tasks[t].Retiring?
    ensures s.live > 0 && s.tasks[t].c !in s.retired && s.tasks[t].c in s.dead
  {
    var d := s.tasks[t].c;
    assert Owns(s.tasks[t], d) && PlaceOk(s, d, at[d]);
    BelowCardinality(s.retired + {d}, s.created);
  }

  lemma CountedStep(s: State, at: map<Conn, Place>, e: Event)
    requires Placed(s, at) && Counted(s) && Enabled(s, e)
    requires e.ClaimSlot? ==> s.tasks[e.t].seen < s.max
    ensures Counted(Step(s, e))
  {
    match e
    case ExchangeFlag(t) =>
      var c := s.tasks[t].c;
      if c !in s.dead { assert Dooms(s.tasks[t], c, s.dead) && c in at; }
    case Decrement(t) => RetiringIsCounted(s, at, t);
    case _ =>
  }

  /** A slot is claimed at a value seen below the limit. */
  predicate ClaimsBelowMax(s: State) {
    forall t | t in s.tasks :: s.tasks[t].Claiming? ==> s.tasks[t].seen < s.max
  }

  ghost predicate Safe(s: State) { Inv(s) && ClaimsBelowMax(s) }

  lemma StepKeeps(s: State, e: Event)
    requires Safe(s) && Enabled(s, e)
    ensures Safe(Step(s, e)) && Step(s, e).max == s.max
  {
    var at :| Placed(s, at);
    if Searches(e) {
      PlacedSearch(s, at, e);
      MatchedSearch(s, e);
    } else {
      PlacedReturn(s, at, e);
      if e.Decrement? { RetiringIsCounted(s, at, e.t); }
      MatchedReturn(s, e);
    }
    CountedStep(s, at, e);
    ClaimsStep(s, e);
  }

  lemma ClaimsStep(s: State, e: Event)
    requires ClaimsBelowMax(s) && Enabled(s, e)
    ensures ClaimsBelowMax(Step(s, e)) && Step(s, e).max == s.max
  {}

  lemma {:induction false} RunKeeps(s: State, events: seq<Event>)
    requires Safe(s) && IsRun(s, events)
    ensures Safe(After(s, events)) && After(s, events).max == s.max
    decreases |events|
  {
    if events != [] {
      StepKeeps(s, events[0]);
      RunKeeps(Step(s, events[0]), events[1..]);
    }
  }

  lemma InitIsSafe(max: nat)
    ensures Safe(Init(max))
  {
    var at: map<Conn, Place> := map[];
    assert Placed(Init(max), at);
    assert WillLook(Init(max)) == {} && WillLookOrCount(Init(max)) == {};
  }

  // ---------- the theorems ----------

  /** No lost wake-up: in every reachable state, if a task is parked and no task
      is on its way to look at the queue or the counter, or to release a permit,
      then there is nothing to be had: no idle connection and no free slot. */
  lemma NoLostWakeup(max: nat, events: seq<Event>)
    requires IsRun(Init(max), events)
    requires SomeoneParked(After(Init(max), events))
    requires WillLookOrCount(After(Init(max), events)) == {}
    ensures After(Init(max), events).idle == [] && After(Init(max), events).live == max
  {
    InitIsSafe(max);
    RunKeeps(Init(max), events);
    var s := After(Init(max), events);
    assert SomeoneWaits(s) by {
      var t :| t in s.tasks && s.tasks[t].Parked?;
    }
  }

  /** Conservation: the counter is the number of connections created and not
      retired, stays within the limit, and each such connection is in exactly one
      place, in the idle queue once or with one task. */
  lemma Conservation(max: nat, events: seq<Event>)
    requires IsRun(Init(max), events)
    ensures var s := After(Init(max), events);
            && s.live == s.created - |s.retired| && s.live <= max && s.retired <= s.dead
            && NoRepeats(s.idle)
            && forall c: Conn | c < s.created && c !in s.retired :: InOnePlace(s, c)
  {
    InitIsSafe(max);
    RunKeeps(Init(max), events);
    var s := After(Init(max), events);
    var at :| Placed(s, at);
    forall c: Conn | c < s.created && c !in s.retired
      ensures InOnePlace(s, c)
    {
      OnePlaceEach(s, at, c);
    }
  }

  lemma OnePlaceEach(s: State, at: map<Conn, Place>, c: Conn)
    requires Placed(s, at) && c < s.created && c !in s.retired
    ensures InOnePlace(s, c)
  {
    assert c in at && PlaceOk(s, c, at[c]);
    if at[c].With? {
      assert SoleOwner(s, at[c].t, c);
    }
  }

  /** No task has c. */
  ghost predicate Unowned(s: State, c: Conn) {
    forall t | t in s.tasks :: !Owns(s.tasks[t], c) && !Dooms(s.tasks[t], c, s.dead)
  }

  /** One task has c, and no other has it or can retire it. */
  ghost predicate SoleOwner(s: State, t: Task, c: Conn) {
    && t in s.tasks && Owns(s.tasks[t], c)
    && forall u | u in s.tasks && (Owns(s.tasks[u], c) || Dooms(s.tasks[u], c, s.dead)) :: u == t
  }

  /** c is on its way out: mark_dead was called on it, its flag is free, nobody has it. */
  ghost predicate OnItsWayOut(s: State, c: Conn) {
    && c !in s.dead && SomeoneCondemned(s, c)
    && forall u | u in s.tasks :: !Owns(s.tasks[u], c)
  }

  ghost predicate InOnePlace(s: State, c: Conn) {
    || (c in s.idle && Unowned(s, c))
    || (c !in s.idle && exists t :: SoleOwner(s, t, c))
    || (c !in s.idle && OnItsWayOut(s, c))
  }

  /** The holder of a connection always finds room for it in the idle queue, so
      the branch of release_connection() that drops it is never taken. */
  lemma ReleaseAlwaysFits(max: nat, events: seq<Event>, t: Task)
    requires IsRun(Init(max), events)
    requires t in After(Init(max), events).tasks && After(Init(max), events).tasks[t].Holding?
    ensures |After(Init(max), events).idle| < max
  {
    InitIsSafe(max);
    RunKeeps(Init(max), events);
    var s := After(Init(max), events);
    var at :| Placed(s, at);
    RoomForHeld(s, at, t);
  }

  lemma RoomForHeld(s: State, at: map<Conn, Place>, t: Task)
    requires Placed(s, at) && Counted(s) && t in s.tasks && s.tasks[t].Holding?
    ensures |s.idle| < s.max
  {
    var held := s.tasks[t].c;
    assert Owns(s.tasks[t], held) && PlaceOk(s, held, at[held]);
    var queued := Elements(s.idle);
    NoRepeatsCardinality(s.idle);
    forall c | c in queued
      ensures c < s.created && c !in s.retired && c != held
    {
      assert PlaceOk(s, c, at[c]);
    }
    BelowCardinality(queued + {held} + s.retired, s.created);
    assert |queued + {held} + s.retired| == |queued| + 1 + |s.retired|;
  }

  function Elements(q: seq<Conn>): set<Conn> { set c | c in q }

  lemma {:induction false} NoRepeatsCardinality(q: seq<Conn>)
    requires NoRepeats(q)
    ensures |Elements(q)| == |q|
  {
    if q == [] {
      assert Elements(q) == {};
    } else {
      var rest := q[..|q| - 1];
      var last := q[|q| - 1];
      NoRepeatsCardinality(rest);
      assert q == rest + [last];
      assert last !in rest;
      assert Elements(q) == Elements(rest) + {last};
    }
  }

  /** How many steps of a run decrement the counter for c. */
  ghost function Decrements(s: State, events: seq<Event>, c: Conn): nat
    requires IsRun(s, events)
    decreases |events|
  {
    if events == [] then 0
    else One(events[0].Decrement? && s.tasks[events[0].t].c == c) + Decrements(Step(s, events[0]), events[1..], c)
  }

  lemma RetiresOnce(s: State, e: Event, c: Conn)
    requires Safe(s) && Enabled(s, e)
    ensures One(c in Step(s, e).retired) == One(c in s.retired) + One(e.Decrement? && s.tasks[e.t].c == c)
  {
    if e.Decrement? {
      var at :| Placed(s, at);
      RetiringIsCounted(s, at, e.t);
    }
  }

  lemma {:induction false} DecrementsFrom(s: State, events: seq<Event>, c: Conn)
    requires Safe(s) && IsRun(s, events)
    ensures One(c in After(s, events).retired) == One(c in s.retired) + Decrements(s, events, c)
    decreases |events|
  {
    if events != [] {
      StepKeeps(s, events[0]);
      RetiresOnce(s, events[0], c);
      DecrementsFrom(Step(s, events[0]), events[1..], c);
    }
  }

  /** However often mark_dead is called on a connection, and however the calls
      overlap, the counter is decremented once for it: over every run the
      decrements for c number one if c is retired and none otherwise. */
  lemma DecrementsOnce(max: nat, events: seq<Event>, c: Conn)
    requires IsRun(Init(max), events)
    ensures Decrements(Init(max), events, c) == One(c in After(Init(max), events).retired)
  {
    InitIsSafe(max);
    DecrementsFrom(Init(max), events, c);
  }

  /** A decrement never finds the counter at zero. */
  lemma NeverBelowZero(max: nat, events: seq<Event>, t: Task)
    requires IsRun(Init(max), events)
    requires t in After(Init(max), events).tasks && After(Init(max), events).tasks[t].Retiring?
    ensures var s := After(Init(max), events);
            s.live > 0 && s.tasks[t].c !in s.retired && Step(s, Decrement(t)).live == s.live - 1
  {
    InitIsSafe(max);
    RunKeeps(Init(max), events);
    var s := After(Init(max), events);
    var at :| Placed(s, at);
    RetiringIsCounted(s, at, t);
  }

  /** Two calls of mark_dead do meet before the flag: the exchange decides between them. */
  lemma FlagIsContended()
    ensures var events := [Enter(0), LookAndMiss(0, false), LoadLive(0), ClaimSlot(0)] + [DialEnds(0, false), MarkDeadAgain(1, 0)];
            && IsRun(Init(1), events)
            && After(Init(1), events).tasks == map[0 := Condemned(0, Leave), 1 := Condemned(0, Leave)]
            && After(Init(1), events).dead == {}
  {
    var dialing := State(1, [], 1, 0, map[0 := Dialing(0)], 1, {}, {});
    var failing := [DialEnds(0, false), MarkDeadAgain(1, 0)];
    SecondMarker();
    RunOfCons(State(1, [], 0, 0, map[0 := Claiming(0)], 0, {}, {}), ClaimSlot(0), dialing, failing);
    RunOfCons(State(1, [], 0, 0, map[0 := Checking], 0, {}, {}), LoadLive(0),
              State(1, [], 0, 0, map[0 := Claiming(0)], 0, {}, {}), [ClaimSlot(0)] + failing);
    RunOfCons(State(1, [], 0, 0, map[0 := Looking], 0, {}, {}), LookAndMiss(0, false),
              State(1, [], 0, 0, map[0 := Checking], 0, {}, {}), [LoadLive(0)] + ([ClaimSlot(0)] + failing));
    RunOfCons(Init(1), Enter(0), State(1, [], 0, 0, map[0 := Looking], 0, {}, {}),
              [LookAndMiss(0, false)] + ([LoadLive(0)] + ([ClaimSlot(0)] + failing)));
    assert [Enter(0), LookAndMiss(0, false), LoadLive(0), ClaimSlot(0)] + failing
        == [Enter(0)] + ([LookAndMiss(0, false)] + ([LoadLive(0)] + ([ClaimSlot(0)] + failing)));
  }

  lemma SecondMarker()
    ensures var dialing := State(1, [], 1, 0, map[0 := Dialing(0)], 1, {}, {});
            var failing := [DialEnds(0, false), MarkDeadAgain(1, 0)];
            && IsRun(dialing, failing)
            && After(dialing, failing)
            == State(1, [], 1, 0, map[0 := Condemned(0, Leave), 1 := Condemned(0, Leave)], 1, {}, {})
  {
    var condemned := State(1, [], 1, 0, map[0 := Condemned(0, Leave)], 1, {}, {});
    assert condemned.tasks[0].Condemned?;
    RunOfCons(condemned, MarkDeadAgain(1, 0),
              State(1, [], 1, 0, map[0 := Condemned(0, Leave), 1 := Condemned(0, Leave)], 1, {}, {}), []);
    RunOfCons(State(1, [], 1, 0, map[0 := Dialing(0)], 1, {}, {}), DialEnds(0, false), condemned, [MarkDeadAgain(1, 0)]);
  }

  lemma RunOfCons(s: State, e: Event, t: State, rest: seq<Event>)
    requires Enabled(s, e) && Step(s, e) == t && IsRun(t, rest)
    ensures IsRun(s, [e] + rest) && After(s, [e] + rest) == After(t, rest)
  {
    assert ([e] + rest)[1..] == rest;
  }

  /** A connection being dialed or in use has not been accounted dead. */
  lemma HeldIsAlive(max: nat, events: seq<Event>, t: Task)
    requires IsRun(Init(max), events)
    requires t in After(Init(max), events).tasks
    requires After(Init(max), events).tasks[t].Dialing? || After(Init(max), events).tasks[t].Holding?
    ensures After(Init(max), events).tasks[t].c !in After(Init(max), events).dead
  {
    InitIsSafe(max);
    RunKeeps(Init(max), events);
    var s := After(Init(max), events);
    var at :| Placed(s, at);
    assert Owns(s.tasks[t], s.tasks[t].c) && PlaceOk(s, s.tasks[t].c, at[s.tasks[t].c]);
  }

  /** A parked task whose turn has not come is waiting for connections that other
      tasks have: each of the pool's connections is with one, or on its way out. */
  lemma ParkedWaitsForOwners(max: nat, events: seq<Event>, c: Conn)
    requires IsRun(Init(max), events)
    requires SomeoneParked(After(Init(max), events)) && WillLookOrCount(After(Init(max), events)) == {}
    requires c < After(Init(max), events).created && c !in After(Init(max), events).retired
    ensures (exists t :: SoleOwner(After(Init(max), events), t, c)) || OnItsWayOut(After(Init(max), events), c)
  {
    NoLostWakeup(max, events);
    Conservation(max, events);
    assert InOnePlace(After(Init(max), events), c);
  }
}
