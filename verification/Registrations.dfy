/** Who is registered, and in which order commands are settled: over every run, the handlers
    of a channel are the ones added and not taken away since, in arrival order, and the
    commands are settled in the order in which they were issued. */
module Registrations {
  import opened Wrappers
  import opened Sequences
  import opened SubscriptionProtocol
  import opened HandlerResults

  // ---------- one event ----------

  /** The handlers of a channel, in the order in which a notification runs them. */
  function HandlersOf(s: State, c: Channel): seq<nat> { if c in s.exact then s.exact[c] else [] }

  /** The event takes handler id off channel c. */
  predicate TakesAway(e: Event, c: Channel, id: nat) {
    (e.EraseHandler? && e.channel == c && e.handler == id) || (e.RemoveChannel? && e.channel == c)
  }

  predicate Adds(e: Event, c: Channel) { e.AddHandler? && e.channel == c }

  function Dropped(ids: seq<nat>, id: nat): seq<nat> {
    if ids == [] then [] else Dropped(ids[..|ids| - 1], id) + if ids[|ids| - 1] == id then [] else [ids[|ids| - 1]]
  }

  /** The event is a removal on channel c. */
  predicate Removes(e: Event, c: Channel) { (e.EraseHandler? || e.RemoveChannel?) && e.channel == c }

  lemma AddedLast(s: State, c: Channel, id: nat, sendOk: bool, d: Channel)
    ensures HandlersOf(DoAddHandler(s, c, id, sendOk), d) == if d == c then HandlersOf(s, d) + [id] else HandlersOf(s, d)
  {
    StartNextFrame(Enqueue(Register(s, c, id), c, true), sendOk);
  }

  lemma ErasedOnly(s: State, c: Channel, id: nat, sendOk: bool, d: Channel)
    ensures HandlersOf(DoEraseHandler(s, c, id, sendOk), d) == if d == c then Without(HandlersOf(s, d), id) else HandlersOf(s, d)
  {
    StartNextFrame(Enqueue(Unregister(s, c), c, false), sendOk);
    if id !in HandlersOf(s, c) { WithoutAbsent(HandlersOf(s, c), id); }
  }

  lemma RemovedOnly(s: State, c: Channel, sendOk: bool, d: Channel)
    ensures HandlersOf(DoRemoveChannel(s, c, sendOk), d) == if d == c then [] else HandlersOf(s, d)
  {
    StartNextFrame(Enqueue(Unregister(s, c), c, false), sendOk);
  }

  lemma OthersKeepHandlers(s: State, e: Event)
    requires Enabled(s, e) && !e.AddHandler? && !e.EraseHandler? && !e.RemoveChannel?
    ensures Step(s, e).exact == s.exact
  {
    match e
    case DrawId =>
    case DirectAnswered(d, ok) =>
    case StartRun(connected, sendOk) => StartNextFrame(s.(phase := Serving, connReady := connected), sendOk);
    case Drain(replies, sendOk) =>
      ReadRepliesPhase(s, replies);
      StartNextFrame(ReadReplies(s, replies), sendOk);
    case LoseConnection =>
    case Reconnect(names) =>
    case Relisten(ok) =>
    case Subscribed(sendOk) => StartNextFrame(s.(connReady := true, phase := Serving), sendOk);
  }

  /** A new handler comes last and the others stay; removals touch only whom they name. */
  lemma StepHandlers(s: State, e: Event, c: Channel)
    requires Enabled(s, e)
    ensures var before, after := HandlersOf(s, c), HandlersOf(Step(s, e), c);
            && (Adds(e, c) ==> after == before + [e.handler])
            && (e.RemoveChannel? && e.channel == c ==> after == [])
            && (e.EraseHandler? && e.channel == c ==> after == Without(before, e.handler))
            && (!Adds(e, c) && !Removes(e, c) ==> after == before)
  {
    if e.AddHandler? { AddedLast(s, e.channel, e.handler, e.sendOk, c); }
    else if e.EraseHandler? { ErasedOnly(s, e.channel, e.handler, e.sendOk, c); }
    else if e.RemoveChannel? { RemovedOnly(s, e.channel, e.sendOk, c); }
    else { OthersKeepHandlers(s, e); }
  }

  lemma {:induction false} WithoutAbsent(ids: seq<nat>, id: nat)
    requires id !in ids
    ensures Without(ids, id) == ids
    decreases |ids|
  {
    if ids != [] { WithoutAbsent(ids[1..], id); }
  }

  // ---------- every run ----------

  /** Event i added a handler to c, and no later one took it away. */
  predicate Stands(events: seq<Event>, c: Channel, i: nat) {
    && i < |events| && Adds(events[i], c)
    && forall j | i < j < |events| :: !TakesAway(events[j], c, events[i].handler)
  }

  /** The handlers whose registration stands, of the first n events. */
  function Standing(events: seq<Event>, c: Channel, n: nat): seq<nat>
    requires n <= |events|
  {
    if n == 0 then [] else Standing(events, c, n - 1) + if Stands(events, c, n - 1) then [events[n - 1].handler] else []
  }

  lemma StandsAfter(before: seq<Event>, e: Event, c: Channel, i: nat)
    requires i < |before|
    ensures Stands(before + [e], c, i) <==> Stands(before, c, i) && !TakesAway(e, c, before[i].handler)
  {
    var events := before + [e];
    if Stands(events, c, i) {
      assert events[|before|] == e;
      forall j | i < j < |before| ensures !TakesAway(before[j], c, before[i].handler) { assert before[j] == events[j]; }
    }
  }

  lemma DroppedSnoc(ids: seq<nat>, x: nat, id: nat)
    ensures Dropped(ids + [x], id) == Dropped(ids, id) + if x == id then [] else [x]
  {
    assert (ids + [x])[..|ids|] == ids;
  }

  /** What stood before, once the event has taken away what it takes away. */
  function LeftOf(ids: seq<nat>, e: Event, c: Channel): seq<nat> {
    if e.RemoveChannel? && e.channel == c then []
    else if e.EraseHandler? && e.channel == c then Dropped(ids, e.handler)
    else ids
  }

  lemma LeftOfSnoc(ids: seq<nat>, x: nat, e: Event, c: Channel)
    ensures LeftOf(ids + [x], e, c) == LeftOf(ids, e, c) + if TakesAway(e, c, x) then [] else [x]
  {
    if e.EraseHandler? { DroppedSnoc(ids, x, e.handler); }
  }

  lemma {:induction false} StandingAfter(before: seq<Event>, e: Event, c: Channel, n: nat)
    requires n <= |before|
    ensures Standing(before + [e], c, n) == LeftOf(Standing(before, c, n), e, c)
    decreases n
  {
    if n > 0 {
      StandingAfter(before, e, c, n - 1);
      StandsAfter(before, e, c, n - 1);
      var older := Standing(before, c, n - 1);
      if Stands(before, c, n - 1) {
        LeftOfSnoc(older, before[n - 1].handler, e, c);
      } else {
        assert older + [] == older;
      }
    }
  }

  lemma {:induction false} DroppedIsWithout(ids: seq<nat>, id: nat)
    requires NoRepeats(ids)
    ensures Dropped(ids, id) == Without(ids, id)
    decreases |ids|
  {
    if ids != [] {
      var init, last := ids[..|ids| - 1], ids[|ids| - 1];
      DroppedIsWithout(init, id);
      WithoutSnoc(init, last, id);
      assert init + [last] == ids;
      assert forall j | 0 <= j < |init| :: init[j] == ids[j];
      if id !in init { WithoutAbsent(init, id); }
    }
  }

  lemma {:induction false} WithoutSnoc(ids: seq<nat>, x: nat, id: nat)
    ensures Without(ids + [x], id)
         == if id in ids then Without(ids, id) + [x] else if x == id then ids else ids + [x]
    decreases |ids|
  {
    if ids == [] {
      assert [x][1..] == [] && [] + [x] == [x];
    } else {
      assert (ids + [x])[1..] == ids[1..] + [x];
      WithoutSnoc(ids[1..], x, id);
    }
  }

  /** The handlers of a channel are exactly those added to it and not taken away since,
      in the order in which they were added. */
  lemma {:induction false} HandlersAreStanding(events: seq<Event>, c: Channel)
    requires IsRun(INIT, events)
    ensures HandlersOf(After(INIT, events), c) == Standing(events, c, |events|)
    decreases |events|
  {
    if events != [] {
      var n := |events| - 1;
      var before, e := events[..n], events[n];
      LastOfRun(INIT, events);
      HandlersAreStanding(before, c);
      StandingAfter(before, e, c, n);
      assert events == before + [e];
      var s := After(INIT, before);
      StepHandlers(s, e, c);
      RunKeepsIds(INIT, before);
      if e.EraseHandler? && e.channel == c {
        if c in s.exact { assert IdsOk(s, s.exact[c]); }
        DroppedIsWithout(HandlersOf(s, c), e.handler);
      }
    }
  }

  lemma {:induction false} InStanding(events: seq<Event>, c: Channel, id: nat, n: nat)
    requires n <= |events|
    ensures id in Standing(events, c, n) <==> exists i: nat :: i < n && Stands(events, c, i) && events[i].handler == id
    decreases n
  {
    if n > 0 { InStanding(events, c, id, n - 1); }
  }

  /** A handler is registered if and only if it was added and neither it nor its channel was
      removed since; no other handler's coming or going matters. */
  lemma RegisteredIff(events: seq<Event>, c: Channel, id: nat)
    requires IsRun(INIT, events)
    ensures id in HandlersOf(After(INIT, events), c) <==> exists i: nat :: Stands(events, c, i) && events[i].handler == id
  {
    HandlersAreStanding(events, c);
    InStanding(events, c, id, |events|);
  }

  // ---------- the order of commands ----------

  /** All commands: settled, in flight, queued. */
  function Books(s: State): seq<Command> {
    s.completed + (if s.inflight.Some? then [s.inflight.value] else []) + s.commands
  }

  lemma {:induction false} StartNextBooks(s: State, sendOk: bool)
    ensures Books(StartNext(s, sendOk)) == Books(s)
    decreases |s.commands|
  {
    if s.inflight.None? && s.connReady && s.commands != [] {
      var head, rest := s.commands[0], s.commands[1..];
      assert s.commands == [head] + rest;
      assert s.completed + [] == s.completed;
      Assoc(s.completed, [head], rest);
      if Superseded(s) {
        assert Skip(s).completed + [] == s.completed + [head];
        StartNextBooks(Skip(s), sendOk);
      }
    }
  }

  lemma {:induction false} ReadRepliesBooks(s: State, replies: seq<Reply>)
    ensures Books(ReadReplies(s, replies)) == Books(s)
    decreases |replies|
  {
    if s.inflight.Some? && replies != [] {
      if replies[0].EndOfReply? {
        assert s.completed + [s.inflight.value] + [] == s.completed + [s.inflight.value];
      } else {
        ReadRepliesBooks(if replies[0].Rejected? then s.(inflightOk := false) else s, replies[1..]);
      }
    }
  }

  lemma EnqueueBooks(s: State, c: Channel, listen: bool)
    ensures Books(Enqueue(s, c, listen)) == Books(s) + [Command(s.nextCommand, c, listen)]
  {
    var done := s.completed + (if s.inflight.Some? then [s.inflight.value] else []);
    Assoc(done, s.commands, [Command(s.nextCommand, c, listen)]);
  }

  /** t has the commands of s, and no more than one new one, at the end. */
  predicate Issued(s: State, t: State, e: Event) {
    || (t.nextCommand == s.nextCommand && Books(t) == Books(s))
    || (&& t.nextCommand == s.nextCommand + 1 && (e.AddHandler? || e.EraseHandler? || e.RemoveChannel?)
        && Books(t) == Books(s) + [Command(s.nextCommand, e.channel, e.AddHandler?)])
  }

  lemma RegistrationBooks(s: State, e: Event)
    requires Enabled(s, e) && (e.AddHandler? || e.EraseHandler? || e.RemoveChannel?)
    ensures Issued(s, Step(s, e), e)
  {
    if e.AddHandler? {
      EnqueueSettles(Register(s, e.channel, e.handler), e.channel, true, e.sendOk);
    } else {
      EnqueueSettles(Unregister(s, e.channel), e.channel, false, e.sendOk);
    }
  }

  /** An event settles commands from the front and issues at most one, at the end. */
  lemma StepBooks(s: State, e: Event)
    requires Enabled(s, e)
    ensures Issued(s, Step(s, e), e)
  {
    match e
    case DrawId =>
    case AddHandler(_, _, _) => RegistrationBooks(s, e);
    case EraseHandler(_, _, _) => RegistrationBooks(s, e);
    case RemoveChannel(_, _) => RegistrationBooks(s, e);
    case DirectAnswered(c, ok) =>
    case StartRun(connected, sendOk) => StartSettles(s.(phase := Serving, connReady := connected), sendOk);
    case Drain(replies, sendOk) =>
      ReadRepliesBooks(s, replies);
      ReadRepliesLedger(s, replies);
      StartSettles(ReadReplies(s, replies), sendOk);
    case LoseConnection =>
      if s.inflight.Some? {
        Assoc(s.completed, [s.inflight.value], s.commands);
        assert s.completed + [] == s.completed;
      }
    case Reconnect(names) =>
    case Relisten(ok) =>
    case Subscribed(sendOk) => StartSettles(s.(connReady := true, phase := Serving), sendOk);
  }

  lemma StartSettles(s: State, sendOk: bool)
    ensures var t := StartNext(s, sendOk); Books(t) == Books(s) && t.nextCommand == s.nextCommand
  {
    StartNextBooks(s, sendOk);
    StartNextLedger(s, sendOk);
  }

  lemma EnqueueSettles(s: State, c: Channel, listen: bool, sendOk: bool)
    ensures var q := Enqueue(s, c, listen);
            var t := StartNext(q, sendOk);
            && Books(q) == Books(t) == Books(s) + [Command(s.nextCommand, c, listen)]
            && q.nextCommand == t.nextCommand == s.nextCommand + 1
  {
    EnqueueBooks(s, c, listen);
    StartSettles(Enqueue(s, c, listen), sendOk);
  }

  /** A LISTEN is queued for the first handler of a channel once run() is on, an UNLISTEN for a
      channel that loses its last one, and nothing else issues a command. */
  predicate Issues(s: State, e: Event) {
    match e
    case AddHandler(c, _, _) => Running(s) && HandlersOf(s, c) == []
    case EraseHandler(c, id, _) => HandlersOf(s, c) != [] && id in HandlersOf(s, c) && Without(HandlersOf(s, c), id) == []
    case RemoveChannel(c, _) => c in s.exact
    case _ => false
  }

  lemma IssuedExactlyWhen(s: State, e: Event)
    requires Enabled(s, e)
    ensures Step(s, e).nextCommand == s.nextCommand + if Issues(s, e) then 1 else 0
    ensures e.AddHandler? && HandlersOf(s, e.channel) == [] && !Running(s) ==>
              Step(s, e).direct == s.direct + multiset{e.channel}
  {
    match e
    case DrawId =>
    case AddHandler(c, id, sendOk) => EnqueueSettles(Register(s, c, id), c, true, sendOk);
    case EraseHandler(c, id, sendOk) => EnqueueSettles(Unregister(s, c), c, false, sendOk);
    case RemoveChannel(c, sendOk) => EnqueueSettles(Unregister(s, c), c, false, sendOk);
    case DirectAnswered(c, ok) =>
    case StartRun(connected, sendOk) => StartSettles(s.(phase := Serving, connReady := connected), sendOk);
    case Drain(replies, sendOk) =>
      ReadRepliesLedger(s, replies);
      StartSettles(ReadReplies(s, replies), sendOk);
    case LoseConnection =>
    case Reconnect(names) =>
    case Relisten(ok) =>
    case Subscribed(sendOk) => StartSettles(s.(connReady := true, phase := Serving), sendOk);
  }

  /** Over every run, connection losses included, commands are settled in the order of their
      issue: the settled ones, the one in flight and the queued ones are numbered from 0 on. */
  lemma {:induction false} SettledInOrder(events: seq<Event>, i: nat)
    requires IsRun(INIT, events) && i < |Books(After(INIT, events))|
    ensures |Books(After(INIT, events))| == After(INIT, events).nextCommand && Books(After(INIT, events))[i].id == i
    decreases |events|
  {
    if events != [] {
      var before := events[..|events| - 1];
      LastOfRun(INIT, events);
      StepBooks(After(INIT, before), events[|events| - 1]);
      BooksCounted(before);
      if i < |Books(After(INIT, before))| { SettledInOrder(before, i); }
    }
  }

  lemma {:induction false} BooksCounted(events: seq<Event>)
    requires IsRun(INIT, events)
    ensures |Books(After(INIT, events))| == After(INIT, events).nextCommand
    decreases |events|
  {
    if events != [] {
      LastOfRun(INIT, events);
      BooksCounted(events[..|events| - 1]);
      StepBooks(After(INIT, events[..|events| - 1]), events[|events| - 1]);
    }
  }
}
