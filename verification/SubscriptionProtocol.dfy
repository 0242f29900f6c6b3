/** The LISTEN / UNLISTEN protocol of the notification multiplexer, on values.

    A state holds the fields the multiplexer guards with its mutex, and beside
    them what the server knows: the subscriptions of the session behind the
    current connection. Every event is one critical section of the source; the
    choices of the environment (does a send succeed, what does the server
    answer, when does the connection die) are arguments of the events, so a
    statement about every sequence of enabled events is a statement about every
    interleaving. */
module SubscriptionProtocol {
  import opened Wrappers

  type Channel = string

  /** A queued LISTEN or UNLISTEN. The id stands for the identity of the object. */
  datatype Command = Command(id: nat, channel: Channel, listen: bool)

  /** One step of reading the reply to the statement in flight. */
  datatype Reply = Accepted | Rejected | EndOfReply

  /** Where the run loop is. Before run() each first add_handler() of a channel
      sends its own LISTEN; afterwards the run loop owns the connection. */
  datatype Phase =
    | BeforeRun
    | Serving
    | Connecting
    | Resubscribing(names: seq<Channel>, answered: nat)

  datatype State = State(
    exact: map<Channel, seq<nat>>,  // handlers of each channel
    nextHandler: nat,
    commands: seq<Command>,
    nextCommand: nat,
    inflight: Option<Command>,
    inflightOk: bool,
    connReady: bool,
    phase: Phase,
    direct: multiset<Channel>,      // LISTENs sent by add_handler() before run(), unanswered
    completed: seq<Command>,        // history of the finished commands
    subs: set<Channel>,             // what the server session is subscribed to
    refused: set<Channel>,          // channels whose last answered statement was an error
    drawn: set<nat>,                // handler ids drawn and not registered yet
    failed: set<Command>)           // completed commands that ended not ok

  const INIT := State(map[], 1, [], 0, None, true, false, BeforeRun, multiset{}, [], {}, {}, {}, {})

  datatype Event =
    | DrawId                                                        // outside the lock
    | AddHandler(channel: Channel, handler: nat, sendOk: bool)
    | EraseHandler(channel: Channel, handler: nat, sendOk: bool)
    | RemoveChannel(channel: Channel, sendOk: bool)
    | DirectAnswered(channel: Channel, ok: bool)
    | StartRun(connected: bool, sendOk: bool)
    | Drain(replies: seq<Reply>, sendOk: bool)
    | LoseConnection
    | Reconnect(names: seq<Channel>)
    | Relisten(ok: bool)
    | Subscribed(sendOk: bool)

  // ---------- the sections ----------

  predicate Running(s: State) { !s.phase.BeforeRun? }

  /** The registrations no longer ask for what the head of the queue says. */
  predicate Superseded(s: State)
    requires s.commands != []
  {
    s.commands[0].listen != (s.commands[0].channel in s.exact)
  }

  /** Such a command completes without being sent. */
  function Skip(s: State): State
    requires s.commands != []
  {
    s.(commands := s.commands[1..], completed := s.completed + [s.commands[0]])
  }

  function Send(s: State): State
    requires s.commands != []
  {
    s.(commands := s.commands[1..], inflight := Some(s.commands[0]), inflightOk := true)
  }

  /** The first command that is still asked for goes on the wire, if the wire is free;
      those before it complete, and one whose send fails stays at the head. */
  function StartNext(s: State, sendOk: bool): State
    decreases |s.commands|
  {
    if s.inflight.Some? || !s.connReady || s.commands == [] then s
    else if Superseded(s) then StartNext(Skip(s), sendOk)
    else if sendOk then Send(s)
    else s.(connReady := false)
  }

  function Enqueue(s: State, channel: Channel, listen: bool): State {
    s.(commands := s.commands + [Command(s.nextCommand, channel, listen)], nextCommand := s.nextCommand + 1)
  }

  function Register(s: State, channel: Channel, handler: nat): State {
    var others := if channel in s.exact then s.exact[channel] else [];
    s.(exact := s.exact[channel := others + [handler]], drawn := s.drawn - {handler})
  }

  function Unregister(s: State, channel: Channel): State {
    s.(exact := s.exact - {channel})
  }

  function DoAddHandler(s: State, channel: Channel, handler: nat, sendOk: bool): State {
    if channel in s.exact && s.exact[channel] != [] then Register(s, channel, handler)
    else if Running(s) then StartNext(Enqueue(Register(s, channel, handler), channel, true), sendOk)
    else Register(s, channel, handler).(direct := s.direct + multiset{channel})
  }

  /** queue_unlisten_locked: the UNLISTEN is queued even before run(). */
  function QueueUnlisten(s: State, channel: Channel, sendOk: bool): State {
    var queued := Enqueue(s, channel, false);
    if Running(s) then StartNext(queued, sendOk) else queued
  }

  /** Drops the first handler with this id. */
  function Without(handlers: seq<nat>, id: nat): seq<nat> {
    if handlers == [] then []
    else if handlers[0] == id then handlers[1..]
    else [handlers[0]] + Without(handlers[1..], id)
  }

  /** erase_exact_locked: remove_handler(), and add_handler() after a failed LISTEN. */
  function DoEraseHandler(s: State, channel: Channel, handler: nat, sendOk: bool): State {
    if channel !in s.exact || handler !in s.exact[channel] then s else
    var left := Without(s.exact[channel], handler);
    if left != [] then s.(exact := s.exact[channel := left])
    else QueueUnlisten(Unregister(s, channel), channel, sendOk)
  }

  function DoRemoveChannel(s: State, channel: Channel, sendOk: bool): State {
    if channel !in s.exact then s
    else QueueUnlisten(Unregister(s, channel), channel, sendOk)
  }

  /** What the server does with a statement it accepts. */
  function Apply(subs: set<Channel>, cmd: Command): set<Channel> {
    if cmd.listen then subs + {cmd.channel} else subs - {cmd.channel}
  }

  /** The answer to a statement reaches the server state and the refusal record. */
  function Answer(s: State, cmd: Command, ok: bool): State {
    if ok then s.(subs := Apply(s.subs, cmd), refused := s.refused - {cmd.channel})
    else s.(refused := s.refused + {cmd.channel})
  }

  function DoDirectAnswered(s: State, channel: Channel, ok: bool): State {
    Answer(s, Command(0, channel, true), ok).(direct := s.direct - multiset{channel})
  }

  function DoStartRun(s: State, connected: bool, sendOk: bool): State {
    StartNext(s.(phase := Serving, connReady := connected), sendOk)
  }

  /** The reply loop: stops at the end of the reply or when libpq is busy again. */
  function ReadReplies(s: State, replies: seq<Reply>): State
    decreases |replies|
  {
    if s.inflight.None? || replies == [] then s else
    match replies[0]
    case Accepted => ReadReplies(s, replies[1..])
    case Rejected => ReadReplies(s.(inflightOk := false), replies[1..])
    case EndOfReply =>
      Answer(s, s.inflight.value, s.inflightOk).(
        inflight := None, completed := s.completed + [s.inflight.value],
        failed := if s.inflightOk then s.failed else s.failed + {s.inflight.value})
  }

  function DoDrain(s: State, replies: seq<Reply>, sendOk: bool): State {
    StartNext(ReadReplies(s, replies), sendOk)
  }

  function DoLoseConnection(s: State): State {
    var lost := s.(connReady := false, phase := Connecting);
    if s.inflight.None? then lost
    else lost.(commands := [s.inflight.value] + s.commands, inflight := None)
  }

  /** A fresh session knows no subscription; the channels to re-LISTEN are a snapshot. */
  function DoReconnect(s: State, names: seq<Channel>): State {
    s.(phase := Resubscribing(names, 0), subs := {}, refused := {})
  }

  function DoRelisten(s: State, ok: bool): State
    requires s.phase.Resubscribing? && s.phase.answered < |s.phase.names|
  {
    if ok then s.(subs := s.subs + {s.phase.names[s.phase.answered]},
                  phase := s.phase.(answered := s.phase.answered + 1))
    else s.(phase := Connecting)
  }

  function DoSubscribed(s: State, sendOk: bool): State {
    StartNext(s.(connReady := true, phase := Serving), sendOk)
  }

  function Members(names: seq<Channel>): set<Channel> { set c | c in names }

  lemma MembersSnoc(names: seq<Channel>, c: Channel)
    ensures Members(names + [c]) == Members(names) + {c}
  {
  }

  // ---------- runs ----------

  ghost predicate Enabled(s: State, e: Event) {
    match e
    case DrawId => true
    case AddHandler(_, id, _) => id in s.drawn
    case EraseHandler(_, _, _) => true
    case RemoveChannel(_, _) => true
    case DirectAnswered(c, _) => s.phase.BeforeRun? && c in s.direct
    case StartRun(_, _) => s.phase.BeforeRun? && s.direct == multiset{}
    case Drain(_, _) => s.phase.Serving?
    case LoseConnection => s.phase.Serving?
    case Reconnect(names) => s.phase.Connecting? && Members(names) == s.exact.Keys
    case Relisten(_) => s.phase.Resubscribing? && s.phase.answered < |s.phase.names|
    case Subscribed(_) => s.phase.Resubscribing? && s.phase.answered == |s.phase.names|
  }

  ghost function Step(s: State, e: Event): State
    requires Enabled(s, e)
  {
    match e
    case DrawId => s.(nextHandler := s.nextHandler + 1, drawn := s.drawn + {s.nextHandler})
    case AddHandler(c, id, sendOk) => DoAddHandler(s, c, id, sendOk)
    case EraseHandler(c, h, sendOk) => DoEraseHandler(s, c, h, sendOk)
    case RemoveChannel(c, sendOk) => DoRemoveChannel(s, c, sendOk)
    case DirectAnswered(c, ok) => DoDirectAnswered(s, c, ok)
    case StartRun(connected, sendOk) => DoStartRun(s, connected, sendOk)
    case Drain(replies, sendOk) => DoDrain(s, replies, sendOk)
    case LoseConnection => DoLoseConnection(s)
    case Reconnect(names) => DoReconnect(s, names)
    case Relisten(ok) => DoRelisten(s, ok)
    case Subscribed(sendOk) => DoSubscribed(s, sendOk)
  }

  /** Every event of the run is enabled when its turn comes. */
  ghost predicate IsRun(s: State, events: seq<Event>)
    decreases |events|
  {
    events == [] || (Enabled(s, events[0]) && IsRun(Step(s, events[0]), events[1..]))
  }

  ghost function After(s: State, events: seq<Event>): State
    requires IsRun(s, events)
    decreases |events|
  {
    if events == [] then s else After(Step(s, events[0]), events[1..])
  }

  // ---------- what every section keeps ----------

  /** A command of the direction the registrations ask for is queued for c. */
  ghost predicate Owed(s: State, c: Channel) {
    exists i :: 0 <= i < |s.commands| && s.commands[i].channel == c && s.commands[i].listen == (c in s.exact)
  }

  /** The server's subscriptions once the statement in flight is accepted. */
  function Effective(s: State): set<Channel> {
    if s.inflight.Some? then Apply(s.subs, s.inflight.value) else s.subs
  }

  /** The server refused the last word on c, and no statement on c is on its way. */
  ghost predicate Excused(s: State, c: Channel) {
    c in s.refused && (s.inflight.Some? ==> s.inflight.value.channel != c)
  }

  ghost predicate Tracked(s: State, c: Channel) {
    match s.phase
    case BeforeRun =>
      if c in s.direct then c in s.exact || Owed(s, c)
      else (c in s.subs) == (c in s.exact) || Owed(s, c) || Excused(s, c)
    case Serving =>
      s.connReady ==> (c in Effective(s)) == (c in s.exact) || Owed(s, c) || Excused(s, c)
    case Connecting => true
    case Resubscribing(names, answered) => (c in names) == (c in s.exact) || Owed(s, c)
  }

  ghost predicate PhaseInv(s: State) {
    && (s.inflight.Some? ==> s.connReady)
    && (s.connReady ==> s.phase.Serving?)
    && (!s.phase.BeforeRun? ==> s.direct == multiset{})
    && (forall c | c in s.exact :: s.exact[c] != [])
    && (s.phase.Resubscribing? ==>
          && s.phase.answered <= |s.phase.names|
          && s.refused == {}
          && s.subs == Members(s.phase.names[..s.phase.answered]))
  }

  ghost predicate Inv(s: State) {
    PhaseInv(s) && forall c: Channel :: Tracked(s, c)
  }

  /** StartNext never touches what is registered or subscribed. */
  lemma {:induction false} StartNextFrame(s: State, sendOk: bool)
    ensures var t := StartNext(s, sendOk);
            && t.exact == s.exact && t.subs == s.subs && t.refused == s.refused
            && t.phase == s.phase && t.direct == s.direct && t.drawn == s.drawn && t.failed == s.failed
            && t.nextHandler == s.nextHandler
            && (t.connReady ==> s.connReady)
            && (t.inflight.Some? && s.inflight.None? ==> t.connReady)
            && (s.inflight.Some? ==> t == s)
            && (t.connReady && t.inflight.None? ==> t.commands == [] || !s.connReady)
    decreases |s.commands|
  {
    if s.inflight.None? && s.connReady && s.commands != [] {
      if Superseded(s) { StartNextFrame(Skip(s), sendOk); }
    }
  }

  /** Popping a superseded command, or sending a current one, keeps each channel tracked. */
  lemma {:induction false} StartNextTracks(s: State, sendOk: bool, c: Channel)
    requires s.phase.Serving? && (s.inflight.Some? ==> s.connReady)
    requires Tracked(s, c)
    ensures Tracked(StartNext(s, sendOk), c)
    decreases |s.commands|
  {
    if s.inflight.None? && s.connReady && s.commands != [] {
      var cmd := s.commands[0];
      if Owed(s, c) && !(cmd.channel == c && cmd.listen == (c in s.exact)) {
        OwedSurvivesPop(s, c);
        OwedDependsOnQueue(s.(commands := s.commands[1..]), Skip(s), c);
        OwedDependsOnQueue(s.(commands := s.commands[1..]), Send(s), c);
      }
      if Superseded(s) { StartNextTracks(Skip(s), sendOk, c); }
    }
  }

  lemma OwedSurvivesPop(s: State, c: Channel)
    requires s.commands != [] && Owed(s, c)
    requires !(s.commands[0].channel == c && s.commands[0].listen == (c in s.exact))
    ensures Owed(s.(commands := s.commands[1..]), c)
  {
    var i :| 0 <= i < |s.commands| && s.commands[i].channel == c && s.commands[i].listen == (c in s.exact);
    assert s.commands[1..][i - 1] == s.commands[i];
  }

  /** Queueing the change of one channel leaves every channel tracked. */
  lemma EnqueueTracks(s: State, t: State, channel: Channel, listen: bool, c: Channel)
    requires Tracked(s, c)
    requires s.phase.BeforeRun? ==> !listen
    requires listen == (channel in t.exact)
    requires forall d: Channel | d != channel :: d in t.exact <==> d in s.exact
    requires t == Enqueue(s, channel, listen).(exact := t.exact, drawn := t.drawn)
    ensures Tracked(t, c)
  {
    if c == channel {
      assert t.commands[|s.commands|].channel == c;
    } else if Owed(s, c) {
      var i :| 0 <= i < |s.commands| && s.commands[i].channel == c && s.commands[i].listen == (c in s.exact);
      assert t.commands[i] == s.commands[i];
    }
  }

  lemma AddHandlerKeeps(s: State, channel: Channel, handler: nat, sendOk: bool)
    requires Inv(s)
    ensures Inv(DoAddHandler(s, channel, handler, sendOk))
  {
    if channel in s.exact || !Running(s) {
      forall c: Channel
        ensures Tracked(DoAddHandler(s, channel, handler, sendOk), c)
      {
        assert Tracked(s, c);
        if c != channel { OwedDependsOnQueue(s, DoAddHandler(s, channel, handler, sendOk), c); }
        else if channel in s.exact { OwedDependsOnQueue(s, DoAddHandler(s, channel, handler, sendOk), c); }
      }
    } else {
      var queued := Enqueue(Register(s, channel, handler), channel, true);
      forall c: Channel
        ensures Tracked(queued, c) && Tracked(StartNext(queued, sendOk), c)
      {
        assert Tracked(s, c);
        EnqueueTracks(s, queued, channel, true, c);
        if s.phase.Serving? { StartNextTracks(queued, sendOk, c); }
      }
      StartNextFrame(queued, sendOk);
    }
  }

  lemma OwedDependsOnQueue(s: State, t: State, c: Channel)
    requires t.commands == s.commands && ((c in t.exact) == (c in s.exact))
    ensures Owed(t, c) == Owed(s, c)
  {}

  /** Removing a channel keeps the invariant: an UNLISTEN is owed for it. */
  lemma UnlistenKeeps(s: State, channel: Channel, sendOk: bool)
    requires Inv(s) && channel in s.exact
    ensures Inv(QueueUnlisten(Unregister(s, channel), channel, sendOk))
  {
    var gone := Unregister(s, channel);
    var queued := Enqueue(gone, channel, false);
    forall c: Channel
      ensures Tracked(queued, c) && (Running(s) ==> Tracked(StartNext(queued, sendOk), c))
    {
      assert Tracked(s, c);
      EnqueueTracks(s, queued, channel, false, c);
      if s.phase.Serving? { StartNextTracks(queued, sendOk, c); }
    }
    StartNextFrame(queued, sendOk);
  }

  lemma EraseHandlerKeeps(s: State, channel: Channel, handler: nat, sendOk: bool)
    requires Inv(s)
    ensures Inv(DoEraseHandler(s, channel, handler, sendOk))
  {
    if channel in s.exact && handler in s.exact[channel] {
      var left := Without(s.exact[channel], handler);
      if left != [] {
        var t := s.(exact := s.exact[channel := left]);
        forall c: Channel
          ensures Tracked(t, c)
        {
          assert Tracked(s, c);
          OwedDependsOnQueue(s, t, c);
        }
      } else {
        UnlistenKeeps(s, channel, sendOk);
      }
    }
  }

  lemma DirectAnsweredKeeps(s: State, channel: Channel, ok: bool)
    requires Inv(s) && s.phase.BeforeRun? && channel in s.direct
    ensures Inv(DoDirectAnswered(s, channel, ok))
  {
    var t := DoDirectAnswered(s, channel, ok);
    forall c: Channel
      ensures Tracked(t, c)
    {
      assert Tracked(s, c);
      OwedDependsOnQueue(s, t, c);
    }
  }

  /** Reading the reply: what was in flight is now what the server has. */
  lemma {:induction false} ReadRepliesKeeps(s: State, replies: seq<Reply>)
    requires Inv(s) && s.phase.Serving?
    ensures Inv(ReadReplies(s, replies))
    decreases |replies|
  {
    if s.inflight.Some? && replies != [] {
      match replies[0]
      case Accepted => ReadRepliesKeeps(s, replies[1..]);
      case Rejected =>
        var t := s.(inflightOk := false);
        forall c: Channel ensures Tracked(t, c) { assert Tracked(s, c); OwedDependsOnQueue(s, t, c); }
        ReadRepliesKeeps(t, replies[1..]);
      case EndOfReply =>
        var t := ReadReplies(s, replies);
        forall c: Channel ensures Tracked(t, c) { assert Tracked(s, c); OwedDependsOnQueue(s, t, c); }
    }
  }

  lemma StartNextKeeps(s: State, sendOk: bool)
    requires Inv(s) && s.phase.Serving?
    ensures Inv(StartNext(s, sendOk))
  {
    StartNextFrame(s, sendOk);
    forall c: Channel
      ensures Tracked(StartNext(s, sendOk), c)
    {
      assert Tracked(s, c);
      StartNextTracks(s, sendOk, c);
    }
  }

  /** Changes of phase that neither queue nor register anything. */
  lemma PhaseStepKeeps(s: State, t: State)
    requires Inv(s) && PhaseInv(t)
    requires t.commands == s.commands && t.exact == s.exact && t.refused == s.refused && t.direct == s.direct
    requires t.inflight.None? && s.inflight.None?
    requires t.phase.Serving? && t.subs == s.subs
    requires t.connReady ==>
               || (s.phase.BeforeRun? && s.direct == multiset{})
               || (s.phase.Resubscribing? && s.phase.answered == |s.phase.names|)
    ensures Inv(t)
  {
    forall c: Channel
      ensures Tracked(t, c)
    {
      assert Tracked(s, c);
      OwedDependsOnQueue(s, t, c);
      if s.phase.Resubscribing? && s.phase.answered == |s.phase.names| {
        assert s.phase.names[..s.phase.answered] == s.phase.names;
      }
    }
  }

  lemma RelistenKeeps(s: State, ok: bool)
    requires Inv(s) && s.phase.Resubscribing? && s.phase.answered < |s.phase.names|
    ensures Inv(DoRelisten(s, ok))
  {
    var t := DoRelisten(s, ok);
    var k := s.phase.answered;
    assert s.phase.names[..k + 1] == s.phase.names[..k] + [s.phase.names[k]];
    forall c: Channel
      ensures Tracked(t, c)
    {
      assert Tracked(s, c);
      OwedDependsOnQueue(s, t, c);
    }
  }

  lemma StepKeeps(s: State, e: Event)
    requires Inv(s) && Enabled(s, e)
    ensures Inv(Step(s, e))
  {
    match e
    case DrawId =>
      assert forall c: Channel :: Tracked(s, c) ==> Tracked(Step(s, e), c);
    case AddHandler(c, id, sendOk) => AddHandlerKeeps(s, c, id, sendOk);
    case EraseHandler(c, h, sendOk) => EraseHandlerKeeps(s, c, h, sendOk);
    case RemoveChannel(c, sendOk) => if c in s.exact { UnlistenKeeps(s, c, sendOk); }
    case DirectAnswered(c, ok) => DirectAnsweredKeeps(s, c, ok);
    case StartRun(connected, sendOk) =>
      var t := s.(phase := Serving, connReady := connected);
      PhaseStepKeeps(s, t);
      StartNextKeeps(t, sendOk);
    case Drain(replies, sendOk) =>
      ReadRepliesKeeps(s, replies);
      ReadRepliesPhase(s, replies);
      StartNextKeeps(ReadReplies(s, replies), sendOk);
    case LoseConnection =>
      assert forall c: Channel :: Tracked(Step(s, e), c);
    case Reconnect(names) =>
      assert forall c: Channel :: Tracked(Step(s, e), c);
    case Relisten(ok) => RelistenKeeps(s, ok);
    case Subscribed(sendOk) =>
      var t := s.(connReady := true, phase := Serving);
      PhaseStepKeeps(s, t);
      StartNextKeeps(t, sendOk);
  }

  lemma {:induction false} ReadRepliesPhase(s: State, replies: seq<Reply>)
    ensures var t := ReadReplies(s, replies);
            t.phase == s.phase && t.connReady == s.connReady && t.exact == s.exact && t.commands == s.commands
    decreases |replies|
  {
    if s.inflight.Some? && replies != [] && !replies[0].EndOfReply? {
      ReadRepliesPhase(if replies[0].Rejected? then s.(inflightOk := false) else s, replies[1..]);
    }
  }

  lemma {:induction false} RunKeeps(s: State, events: seq<Event>)
    requires Inv(s) && IsRun(s, events)
    ensures Inv(After(s, events))
    decreases |events|
  {
    if events != [] {
      StepKeeps(s, events[0]);
      RunKeeps(Step(s, events[0]), events[1..]);
    }
  }

  // ---------- the theorems ----------

  /** Nothing queued, nothing in flight, and the connection is in service. */
  predicate Quiet(s: State) {
    s.connReady && s.commands == [] && s.inflight.None?
  }

  /** After any run, a channel on which the server (once the statement in
      flight lands) and the registrations disagree has a queued command of the
      right direction, unless the server refused its last statement. */
  lemma DisagreementIsQueued(events: seq<Event>, c: Channel)
    requires IsRun(INIT, events)
    requires After(INIT, events).connReady
    ensures var s := After(INIT, events);
            (c in Effective(s)) != (c in s.exact) && c !in s.refused ==>
              exists i :: 0 <= i < |s.commands| && s.commands[i] == Command(s.commands[i].id, c, c in s.exact)
  {
    RunKeeps(INIT, events);
    var s := After(INIT, events);
    assert Tracked(s, c);
    if Owed(s, c) {
      var i :| 0 <= i < |s.commands| && s.commands[i].channel == c && s.commands[i].listen == (c in s.exact);
      assert s.commands[i] == Command(s.commands[i].id, c, c in s.exact);
    }
  }

  /** Whatever happened before, a quiet multiplexer is subscribed to exactly the
      channels that have handlers, up to those the server itself refused. */
  lemma Convergence(events: seq<Event>)
    requires IsRun(INIT, events)
    requires Quiet(After(INIT, events))
    ensures var s := After(INIT, events);
            forall c: Channel | c !in s.refused :: c in s.subs <==> c in s.exact
    ensures var s := After(INIT, events);
            s.refused == {} ==> s.subs == s.exact.Keys
  {
    RunKeeps(INIT, events);
    var s := After(INIT, events);
    forall c: Channel | c !in s.refused
      ensures c in s.subs <==> c in s.exact
    {
      assert Tracked(s, c);
    }
  }

  /** A run in which the server accepts every statement it answers. */
  ghost predicate AllAccepted(events: seq<Event>) {
    forall i | 0 <= i < |events| ::
      && (events[i].DirectAnswered? ==> events[i].ok)
      && (events[i].Drain? ==> Rejected !in events[i].replies)
  }

  lemma {:induction false} AcceptedRepliesRefuseNothing(s: State, replies: seq<Reply>)
    requires s.refused == {} && (s.inflight.Some? ==> s.inflightOk) && Rejected !in replies
    ensures var t := ReadReplies(s, replies); t.refused == {} && (t.inflight.Some? ==> t.inflightOk)
    decreases |replies|
  {
    if s.inflight.Some? && replies != [] && replies[0].Accepted? {
      AcceptedRepliesRefuseNothing(s, replies[1..]);
    }
  }

  lemma {:induction false} StartNextRefusesNothing(s: State, sendOk: bool)
    requires s.inflight.Some? ==> s.inflightOk
    ensures var t := StartNext(s, sendOk); t.inflight.Some? ==> t.inflightOk
    decreases |s.commands|
  {
    if s.inflight.None? && s.connReady && s.commands != [] {
      if Superseded(s) { StartNextRefusesNothing(Skip(s), sendOk); }
    }
  }

  lemma {:induction false} AcceptedStepRefusesNothing(s: State, e: Event)
    requires Enabled(s, e) && s.refused == {} && (s.inflight.Some? ==> s.inflightOk)
    requires AllAccepted([e])
    ensures var t := Step(s, e); t.refused == {} && (t.inflight.Some? ==> t.inflightOk)
  {
    assert [e][0] == e;
    match e
    case DrawId =>
    case AddHandler(c, id, sendOk) =>
      var added := Register(s, c, id);
      StartNextFrame(Enqueue(added, c, true), sendOk);
      StartNextRefusesNothing(Enqueue(added, c, true), sendOk);
    case EraseHandler(c, h, sendOk) =>
      var gone := Unregister(s, c);
      StartNextFrame(Enqueue(gone, c, false), sendOk);
      StartNextRefusesNothing(Enqueue(gone, c, false), sendOk);
    case RemoveChannel(c, sendOk) =>
      var gone := Unregister(s, c);
      StartNextFrame(Enqueue(gone, c, false), sendOk);
      StartNextRefusesNothing(Enqueue(gone, c, false), sendOk);
    case DirectAnswered(c, ok) =>
    case StartRun(connected, sendOk) =>
      StartNextFrame(s.(phase := Serving, connReady := connected), sendOk);
      StartNextRefusesNothing(s.(phase := Serving, connReady := connected), sendOk);
    case Drain(replies, sendOk) =>
      AcceptedRepliesRefuseNothing(s, replies);
      StartNextFrame(ReadReplies(s, replies), sendOk);
      StartNextRefusesNothing(ReadReplies(s, replies), sendOk);
    case LoseConnection =>
    case Reconnect(names) =>
    case Relisten(ok) =>
    case Subscribed(sendOk) =>
      StartNextFrame(s.(connReady := true, phase := Serving), sendOk);
      StartNextRefusesNothing(s.(connReady := true, phase := Serving), sendOk);
  }

  lemma {:induction false} AcceptedRunRefusesNothing(s: State, events: seq<Event>)
    requires IsRun(s, events) && s.refused == {} && (s.inflight.Some? ==> s.inflightOk)
    requires AllAccepted(events)
    ensures After(s, events).refused == {}
    decreases |events|
  {
    if events != [] {
      assert events[0] == [events[0]][0];
      AcceptedStepRefusesNothing(s, events[0]);
      AcceptedRunRefusesNothing(Step(s, events[0]), events[1..]);
    }
  }

  /** The session behind the connection began at the end of this run: there was
      none before, or its connection was just made. */
  ghost predicate SessionBegins(before: seq<Event>) {
    before == [] || before[|before| - 1].Reconnect?
  }

  lemma {:induction false} LastOfRun(s: State, events: seq<Event>)
    requires IsRun(s, events) && events != []
    ensures IsRun(s, events[..|events| - 1]) && Enabled(After(s, events[..|events| - 1]), events[|events| - 1])
    ensures After(s, events) == Step(After(s, events[..|events| - 1]), events[|events| - 1])
    decreases |events|
  {
    var init, last := events[..|events| - 1], events[|events| - 1];
    if |events| == 1 {
      assert init == [] && events[1..] == [];
    } else {
      LastOfRun(Step(s, events[0]), events[1..]);
      assert events[1..][..|events| - 2] == init[1..];
    }
  }

  /** Subscription convergence: over every interleaving of registrations, send
      failures, replies, connection losses and reconnects, quiet means subscribed
      to exactly what is registered, provided the server accepts what it answers
      in the current session. What happened in earlier sessions does not matter. */
  lemma ConvergenceWhenAccepted(before: seq<Event>, rest: seq<Event>)
    requires IsRun(INIT, before) && SessionBegins(before)
    requires IsRun(After(INIT, before), rest) && AllAccepted(rest)
    requires Quiet(After(After(INIT, before), rest))
    ensures var s := After(After(INIT, before), rest); s.subs == s.exact.Keys
  {
    var s := After(INIT, before);
    RunKeeps(INIT, before);
    if before != [] {
      LastOfRun(INIT, before);
    }
    AcceptedRunRefusesNothing(s, rest);
    RunsCompose(INIT, before, rest);
    Convergence(before + rest);
  }

  /** Acceptance is needed: an UNLISTEN the server refuses is never sent again,
      and the session keeps a subscription nobody asked for. */
  lemma RefusedUnlistenStays(c: Channel)
    ensures var events := [DrawId, AddHandler(c, 1, true), DirectAnswered(c, true), StartRun(true, true),
                           RemoveChannel(c, true), Drain([Rejected, EndOfReply], true)];
            && IsRun(INIT, events)
            && Quiet(After(INIT, events))
            && After(INIT, events).exact == map[]
            && After(INIT, events).subs == {c}
            && After(INIT, events).nextHandler == 2
  {
    var cmd := Command(0, c, false);
    var s0 := Step(INIT, DrawId);
    var s1 := DoAddHandler(s0, c, 1, true);
    var s2 := DoDirectAnswered(s1, c, true);
    var s3 := s2.(phase := Serving, connReady := true);
    var s4 := s3.(exact := map[], nextCommand := 1, inflight := Some(cmd), inflightOk := true);
    var s5 := s4.(inflight := None, inflightOk := false, refused := {c}, completed := [cmd], failed := {cmd});
    assert s1.direct == multiset{c} && s2.direct == multiset{} && s2.subs == {c};
    assert DoStartRun(s2, true, true) == s3;
    UnlistenIsSent(s3, c);
    assert s3.exact - {c} == map[];
    RefusalCompletes(s4);
    var e4, e5 := RemoveChannel(c, true), Drain([Rejected, EndOfReply], true);
    RunOfOne(s4, e5, s5);
    RunOfCons(s3, e4, s4, [e5]);
    RunOfCons(s2, StartRun(true, true), s3, [e4, e5]);
    RunOfCons(s1, DirectAnswered(c, true), s2, [StartRun(true, true), e4, e5]);
    var rest := [DirectAnswered(c, true), StartRun(true, true), e4, e5];
    RunOfCons(s0, AddHandler(c, 1, true), s1, rest);
    RunOfCons(INIT, DrawId, s0, [AddHandler(c, 1, true)] + rest);
  }

  lemma UnlistenIsSent(s: State, c: Channel)
    requires s.phase.Serving? && s.connReady && s.inflight.None? && s.commands == [] && c in s.exact
    ensures DoRemoveChannel(s, c, true)
         == s.(exact := s.exact - {c}, nextCommand := s.nextCommand + 1,
               inflight := Some(Command(s.nextCommand, c, false)), inflightOk := true)
  {
    var q := Enqueue(Unregister(s, c), c, false);
    assert q.commands == [Command(s.nextCommand, c, false)] && q.commands[1..] == [];
  }

  lemma RefusalCompletes(s: State)
    requires s.inflight.Some? && s.commands == []
    ensures DoDrain(s, [Rejected, EndOfReply], true)
         == s.(inflight := None, inflightOk := false, refused := s.refused + {s.inflight.value.channel},
               completed := s.completed + [s.inflight.value], failed := s.failed + {s.inflight.value})
  {
    assert [Rejected, EndOfReply][1..] == [EndOfReply];
    assert ReadReplies(s.(inflightOk := false), [EndOfReply]).inflight.None?;
  }

  lemma RunOfOne(s: State, e: Event, t: State)
    requires Enabled(s, e) && Step(s, e) == t
    ensures IsRun(s, [e]) && After(s, [e]) == t
  {
    assert [e][1..] == [] && IsRun(t, []);
  }

  lemma RunOfCons(s: State, e: Event, t: State, rest: seq<Event>)
    requires Enabled(s, e) && Step(s, e) == t && IsRun(t, rest)
    ensures IsRun(s, [e] + rest) && After(s, [e] + rest) == After(t, rest)
  {
    assert ([e] + rest)[1..] == rest;
  }

  // ---------- commands are neither lost nor doubled ----------

  /** Every command the state holds: queued, in flight, or finished. */
  ghost function Ledger(s: State): multiset<Command> {
    Held(s.commands, s.inflight, s.completed)
  }

  ghost function Held(queued: seq<Command>, inflight: Option<Command>, completed: seq<Command>): multiset<Command> {
    multiset(queued) + (if inflight.Some? then multiset{inflight.value} else multiset{}) + multiset(completed)
  }

  /** Moving the head of the queue elsewhere keeps the ledger. */
  lemma HeldMoves(queued: seq<Command>, completed: seq<Command>)
    requires queued != []
    ensures Held(queued, None, completed) == Held(queued[1..], Some(queued[0]), completed)
    ensures Held(queued, None, completed) == Held(queued[1..], None, completed + [queued[0]])
  {
    assert queued == [queued[0]] + queued[1..];
  }

  ghost predicate LedgerInv(s: State) {
    && |Ledger(s)| == s.nextCommand
    && (forall c | c in Ledger(s) :: c.id < s.nextCommand && Ledger(s)[c] == 1)
    && (forall c, d | c in Ledger(s) && d in Ledger(s) && c.id == d.id :: c == d)
  }

  /** t holds what s held, and the one command issued in between, if any. */
  ghost predicate Issues(s: State, t: State) {
    && s.completed <= t.completed
    && (|| (t.nextCommand == s.nextCommand && Ledger(t) == Ledger(s))
        || (t.nextCommand == s.nextCommand + 1
            && exists c: Command :: c.id == s.nextCommand && Ledger(t) == Ledger(s) + multiset{c}))
  }

  lemma {:induction false} StartNextLedger(s: State, sendOk: bool)
    ensures var t := StartNext(s, sendOk);
            Ledger(t) == Ledger(s) && t.nextCommand == s.nextCommand && s.completed <= t.completed
    decreases |s.commands|
  {
    if s.inflight.None? && s.connReady && s.commands != [] {
      HeldMoves(s.commands, s.completed);
      if Superseded(s) { StartNextLedger(Skip(s), sendOk); }
    }
  }

  lemma {:induction false} ReadRepliesLedger(s: State, replies: seq<Reply>)
    ensures var t := ReadReplies(s, replies);
            Ledger(t) == Ledger(s) && t.nextCommand == s.nextCommand && s.completed <= t.completed
    decreases |replies|
  {
    if s.inflight.Some? && replies != [] && !replies[0].EndOfReply? {
      ReadRepliesLedger(if replies[0].Rejected? then s.(inflightOk := false) else s, replies[1..]);
    }
  }

  lemma EnqueueLedger(s: State, channel: Channel, listen: bool, sendOk: bool, start: bool)
    ensures var q := Enqueue(s, channel, listen); Issues(s, if start then StartNext(q, sendOk) else q)
  {
    var q := Enqueue(s, channel, listen);
    var cmd := Command(s.nextCommand, channel, listen);
    assert Ledger(q) == Ledger(s) + multiset{cmd};
    StartNextLedger(q, sendOk);
    assert cmd.id == s.nextCommand;
  }

  lemma IssuesFrom(same: State, s: State, t: State)
    requires Issues(same, t)
    requires same.commands == s.commands && same.inflight == s.inflight && same.completed == s.completed
    requires same.nextCommand == s.nextCommand
    ensures Issues(s, t)
  {}

  lemma AddHandlerIssues(s: State, c: Channel, id: nat, sendOk: bool)
    ensures Issues(s, DoAddHandler(s, c, id, sendOk))
  {
    var added := Register(s, c, id);
    if Running(s) {
      EnqueueLedger(added, c, true, sendOk, true);
      IssuesFrom(added, s, DoAddHandler(s, c, id, sendOk));
    }
  }

  lemma UnlistenIssues(s: State, c: Channel, sendOk: bool)
    ensures Issues(s, QueueUnlisten(Unregister(s, c), c, sendOk))
  {
    var gone := Unregister(s, c);
    EnqueueLedger(gone, c, false, sendOk, Running(s));
    IssuesFrom(gone, s, QueueUnlisten(gone, c, sendOk));
  }

  lemma EraseIssues(s: State, c: Channel, h: nat, sendOk: bool)
    ensures Issues(s, DoEraseHandler(s, c, h, sendOk))
  {
    UnlistenIssues(s, c, sendOk);
  }

  lemma LoopIssues(s: State, e: Event)
    requires Enabled(s, e) && (e.StartRun? || e.Drain? || e.Subscribed?)
    ensures Issues(s, Step(s, e))
  {
    if e.Drain? { ReadRepliesLedger(s, e.replies); }
    var t := if e.StartRun? then s.(phase := Serving, connReady := e.connected)
             else if e.Drain? then ReadReplies(s, e.replies)
             else s.(connReady := true, phase := Serving);
    StartNextLedger(t, e.sendOk);
  }

  lemma LossIssues(s: State)
    ensures Issues(s, DoLoseConnection(s))
  {
    if s.inflight.Some? { HeldMoves(DoLoseConnection(s).commands, s.completed); }
  }

  lemma StepIssues(s: State, e: Event)
    requires Enabled(s, e)
    ensures Issues(s, Step(s, e))
  {
    match e
    case DrawId =>
    case AddHandler(c, id, sendOk) => AddHandlerIssues(s, c, id, sendOk);
    case EraseHandler(c, h, sendOk) => EraseIssues(s, c, h, sendOk);
    case RemoveChannel(c, sendOk) => UnlistenIssues(s, c, sendOk);
    case DirectAnswered(c, ok) =>
    case StartRun(connected, sendOk) => LoopIssues(s, e);
    case Drain(replies, sendOk) => LoopIssues(s, e);
    case LoseConnection => LossIssues(s);
    case Reconnect(names) =>
    case Relisten(ok) =>
    case Subscribed(sendOk) => LoopIssues(s, e);
  }

  /** A command issued with a fresh id keeps the ids distinct. */
  lemma IssueKeepsLedger(s: State, t: State)
    requires LedgerInv(s) && Issues(s, t)
    ensures LedgerInv(t) && Ledger(s) <= Ledger(t)
  {
    if t.nextCommand != s.nextCommand {
      var c: Command :| c.id == s.nextCommand && Ledger(t) == Ledger(s) + multiset{c};
      assert c !in Ledger(s);
    }
  }

  lemma {:induction false} RunLedger(s: State, events: seq<Event>)
    requires LedgerInv(s) && IsRun(s, events)
    ensures LedgerInv(After(s, events))
    ensures Ledger(s) <= Ledger(After(s, events)) && s.completed <= After(s, events).completed
    decreases |events|
  {
    if events != [] {
      StepIssues(s, events[0]);
      IssueKeepsLedger(s, Step(s, events[0]));
      RunLedger(Step(s, events[0]), events[1..]);
    }
  }

  /** Across any number of connection losses a command issued in the first part
      of a run is, after the rest of it, in exactly one of the queue, the
      in-flight slot and the finished commands; and a finished one stays finished. */
  lemma CommandsNeverLostOrDoubled(before: seq<Event>, rest: seq<Event>, cmd: Command)
    requires IsRun(INIT, before) && IsRun(After(INIT, before), rest)
    requires cmd in Ledger(After(INIT, before))
    ensures var t := After(After(INIT, before), rest);
            (if t.inflight == Some(cmd) then 1 else 0) + multiset(t.commands)[cmd] + multiset(t.completed)[cmd] == 1
    ensures cmd in After(INIT, before).completed ==> cmd in After(After(INIT, before), rest).completed
  {
    RunLedger(INIT, before);
    RunLedger(After(INIT, before), rest);
    InOnePlace(After(After(INIT, before), rest), cmd);
  }

  lemma InOnePlace(t: State, cmd: Command)
    requires LedgerInv(t) && cmd in Ledger(t)
    ensures (if t.inflight == Some(cmd) then 1 else 0) + multiset(t.commands)[cmd] + multiset(t.completed)[cmd] == 1
  {
    assert Ledger(t)[cmd] == 1;
  }

  // ---------- progress ----------

  function Backlog(s: State): nat {
    |s.commands| + if s.inflight.Some? then 1 else 0
  }

  /** No command waits in the queue while the connection is free. */
  predicate NoStall(s: State) {
    s.connReady && s.inflight.None? ==> s.commands == []
  }

  lemma StepNeverStalls(s: State, e: Event)
    requires Enabled(s, e) && NoStall(s) && Inv(s)
    ensures NoStall(Step(s, e))
  {
    match e
    case DrawId =>
    case AddHandler(c, id, sendOk) =>
      var added := Register(s, c, id);
      StartNextFrame(Enqueue(added, c, true), sendOk);
    case EraseHandler(c, h, sendOk) => StartNextFrame(Enqueue(Unregister(s, c), c, false), sendOk);
    case RemoveChannel(c, sendOk) => StartNextFrame(Enqueue(Unregister(s, c), c, false), sendOk);
    case DirectAnswered(c, ok) =>
    case StartRun(connected, sendOk) => StartNextFrame(s.(phase := Serving, connReady := connected), sendOk);
    case Drain(replies, sendOk) => StartNextFrame(ReadReplies(s, replies), sendOk);
    case LoseConnection =>
    case Reconnect(names) =>
    case Relisten(ok) =>
    case Subscribed(sendOk) => StartNextFrame(s.(connReady := true, phase := Serving), sendOk);
  }

  lemma {:induction false} RunNeverStalls(s: State, events: seq<Event>)
    requires IsRun(s, events) && NoStall(s) && Inv(s)
    ensures NoStall(After(s, events))
    decreases |events|
  {
    if events != [] {
      StepKeeps(s, events[0]);
      StepNeverStalls(s, events[0]);
      RunNeverStalls(Step(s, events[0]), events[1..]);
    }
  }

  lemma {:induction false} StartNextBacklog(s: State, sendOk: bool)
    ensures Backlog(StartNext(s, sendOk)) <= Backlog(s)
    ensures sendOk ==> StartNext(s, sendOk).connReady == s.connReady
    decreases |s.commands|
  {
    if s.inflight.None? && s.connReady && s.commands != [] {
      if Superseded(s) { StartNextBacklog(Skip(s), sendOk); }
    }
  }

  /** A full reply strictly shrinks the backlog, even if the next send fails. */
  lemma {:induction false} FullReplyShrinks(s: State, replies: seq<Reply>, sendOk: bool)
    requires s.inflight.Some? && EndOfReply in replies
    ensures Backlog(DoDrain(s, replies, sendOk)) < Backlog(s)
  {
    FullReplyCompletes(s, replies);
    StartNextBacklog(ReadReplies(s, replies), sendOk);
  }

  lemma {:induction false} FullReplyCompletes(s: State, replies: seq<Reply>)
    requires s.inflight.Some? && EndOfReply in replies
    ensures var t := ReadReplies(s, replies); t.inflight.None? && t.commands == s.commands && t.connReady == s.connReady
    decreases |replies|
  {
    if !replies[0].EndOfReply? {
      FullReplyCompletes(if replies[0].Rejected? then s.(inflightOk := false) else s, replies[1..]);
    }
  }

  /** The connection stays up, the registrations stay put, and no result is a refusal;
      replies may come in any pieces. */
  predicate IsService(events: seq<Event>) { forall i | 0 <= i < |events| :: Serves(events[i]) }

  predicate Serves(e: Event) { e.Drain? && e.sendOk && Rejected !in e.replies }

  /** How many of the events bring the end of a reply. */
  function Ends(events: seq<Event>): nat
    requires IsService(events)
  {
    if events == [] then 0 else (if EndOfReply in events[0].replies then 1 else 0) + Ends(events[1..])
  }

  lemma {:induction false} ReadRepliesBacklog(s: State, replies: seq<Reply>)
    ensures Backlog(ReadReplies(s, replies)) <= Backlog(s)
    decreases |replies|
  {
    if s.inflight.Some? && replies != [] && !replies[0].EndOfReply? {
      ReadRepliesBacklog(if replies[0].Rejected? then s.(inflightOk := false) else s, replies[1..]);
    }
  }

  /** What one event of service does to the work left. */
  lemma ServiceStep(s: State, e: Event)
    requires Inv(s) && NoStall(s) && s.connReady && Serves(e)
    ensures Enabled(s, e)
    ensures var t := Step(s, e);
            && Inv(t) && NoStall(t) && t.connReady && t.exact == s.exact && Backlog(t) <= Backlog(s)
            && (EndOfReply in e.replies && Backlog(s) > 0 ==> Backlog(t) < Backlog(s))
  {
    var r := ReadReplies(s, e.replies);
    StepKeeps(s, e);
    StepNeverStalls(s, e);
    ReadRepliesPhase(s, e.replies);
    ReadRepliesBacklog(s, e.replies);
    StartNextFrame(r, true);
    StartNextBacklog(r, true);
    if s.inflight.Some? && EndOfReply in e.replies { FullReplyShrinks(s, e.replies, true); }
  }

  lemma {:induction false} ServiceSettles(s: State, events: seq<Event>)
    requires Inv(s) && NoStall(s) && s.connReady && IsService(events) && Ends(events) >= Backlog(s)
    ensures IsRun(s, events) && Quiet(After(s, events)) && After(s, events).exact == s.exact
    decreases |events|
  {
    if events != [] {
      ServiceStep(s, events[0]);
      ServiceSettles(Step(s, events[0]), events[1..]);
    }
  }

  lemma {:induction false} RunsCompose(s: State, a: seq<Event>, b: seq<Event>)
    requires IsRun(s, a) && IsRun(After(s, a), b)
    ensures IsRun(s, a + b) && After(s, a + b) == After(After(s, a), b)
    decreases |a|
  {
    if a == [] {
      assert a + b == b;
    } else {
      RunsCompose(Step(s, a[0]), a[1..], b);
      assert (a + b)[1..] == a[1..] + b;
    }
  }

  /** Channels the server has refused, or is refusing in the reply being read. */
  function Refusals(s: State): set<Channel> {
    s.refused + if s.inflight.Some? && !s.inflightOk then {s.inflight.value.channel} else {}
  }

  lemma {:induction false} StartNextRefusals(s: State, sendOk: bool)
    ensures Refusals(StartNext(s, sendOk)) == Refusals(s)
    decreases |s.commands|
  {
    if s.inflight.None? && s.connReady && s.commands != [] {
      if Superseded(s) { StartNextRefusals(Skip(s), sendOk); }
    }
  }

  lemma {:induction false} ReadRepliesRefusals(s: State, replies: seq<Reply>)
    requires Rejected !in replies
    ensures Refusals(ReadReplies(s, replies)) <= Refusals(s)
    decreases |replies|
  {
    if s.inflight.Some? && replies != [] && replies[0].Accepted? {
      ReadRepliesRefusals(s, replies[1..]);
    }
  }

  /** Service adds no refusal to those there are. */
  lemma {:induction false} ServiceRefusesNothing(s: State, events: seq<Event>)
    requires IsService(events) && IsRun(s, events)
    ensures Refusals(After(s, events)) <= Refusals(s)
    decreases |events|
  {
    if events != [] {
      var e := events[0];
      ReadRepliesRefusals(s, e.replies);
      StartNextRefusals(ReadReplies(s, e.replies), e.sendOk);
      ServiceRefusesNothing(Step(s, e), events[1..]);
    }
  }

  /** `more` brings a multiplexer in state s to rest with the registered
      subscriptions, on every channel not refused by then. */
  ghost predicate Settles(s: State, more: seq<Event>) {
    && IsRun(s, more)
    && Quiet(After(s, more)) && After(s, more).exact == s.exact
    && (forall c: Channel | c !in Refusals(s) :: c in After(s, more).subs <==> c in s.exact)
    && (Refusals(s) == {} ==> After(s, more).subs == s.exact.Keys)
  }

  /** Progress: from any reachable state in service, whatever was refused before,
      every stretch of service with as many ends of reply as there are commands
      outstanding settles the subscriptions, however the replies are cut. */
  lemma SettlesAfterBacklog(events: seq<Event>, more: seq<Event>)
    requires IsRun(INIT, events) && After(INIT, events).connReady
    requires IsService(more) && Ends(more) >= Backlog(After(INIT, events))
    ensures Settles(After(INIT, events), more)
  {
    var s := After(INIT, events);
    RunKeeps(INIT, events);
    RunNeverStalls(INIT, events);
    ServiceSettles(s, more);
    RunsCompose(INIT, events, more);
    ServiceRefusesNothing(s, more);
    Convergence(events + more);
  }

  // ---------- recovery ----------

  /** n re-LISTENs in a row are accepted. */
  function Relistens(n: nat): seq<Event> {
    if n == 0 then [] else [Relisten(true)] + Relistens(n - 1)
  }

  lemma {:induction false} RelistensRun(s: State, n: nat)
    requires s.phase.Resubscribing? && s.phase.answered + n == |s.phase.names|
    ensures IsRun(s, Relistens(n))
    ensures var t := After(s, Relistens(n));
            && t.phase == Resubscribing(s.phase.names, |s.phase.names|)
            && t == s.(phase := t.phase, subs := t.subs)
    decreases n
  {
    if n > 0 {
      assert Relistens(n)[0] == Relisten(true) && Relistens(n)[1..] == Relistens(n - 1);
      RelistensRun(DoRelisten(s, true), n - 1);
    }
  }

  /** A reconnect that succeeds, with the names the run loop finds registered. */
  function Recovery(names: seq<Channel>): seq<Event> {
    [Reconnect(names)] + (Relistens(|names|) + [Subscribed(true)])
  }

  lemma RecoveryRuns(s: State, names: seq<Channel>)
    requires s.phase.Connecting? && s.inflight.None? && Members(names) == s.exact.Keys
    ensures IsRun(s, Recovery(names))
    ensures var t := After(s, Recovery(names)); t.connReady && t.exact == s.exact && Refusals(t) == {}
  {
    var r := DoReconnect(s, names);
    RelistensRun(r, |names|);
    var l := After(r, Relistens(|names|));
    var up := l.(connReady := true, phase := Serving);
    RunOfOne(l, Subscribed(true), DoSubscribed(l, true));
    RunsCompose(r, Relistens(|names|), [Subscribed(true)]);
    RunOfCons(s, Reconnect(names), r, Relistens(|names|) + [Subscribed(true)]);
    StartNextFrame(up, true);
    StartNextBacklog(up, true);
    StartNextRefusals(up, true);
  }

  /** Recovery: from any reachable state without a connection, whatever was lost or
      refused before, a reconnect whose re-LISTENs are accepted, followed by any
      service that ends a reply for each command outstanding, makes the
      subscriptions those registered. */
  lemma RecoversAfterReconnect(events: seq<Event>, names: seq<Channel>, more: seq<Event>)
    requires IsRun(INIT, events) && After(INIT, events).phase.Connecting?
    requires Members(names) == After(INIT, events).exact.Keys
    ensures var s := After(INIT, events);
            && IsRun(s, Recovery(names))
            && var t := After(s, Recovery(names));
               IsService(more) && Ends(more) >= Backlog(t) ==>
                 IsRun(t, more) && Quiet(After(t, more)) && After(t, more).subs == s.exact.Keys
  {
    var s := After(INIT, events);
    RunKeeps(INIT, events);
    RecoveryRuns(s, names);
    RunsCompose(INIT, events, Recovery(names));
    var t := After(s, Recovery(names));
    if IsService(more) && Ends(more) >= Backlog(t) {
      SettlesAfterBacklog(events + Recovery(names), more);
    }
  }

  /** A stretch of service: n statements answered one by one. */
  function Answers(n: nat): seq<Event> {
    if n == 0 then [] else [Drain([Accepted, EndOfReply], true)] + Answers(n - 1)
  }

  lemma {:induction false} AnswersServe(n: nat)
    ensures IsService(Answers(n)) && Ends(Answers(n)) == n
    decreases n
  {
    if n > 0 {
      AnswersServe(n - 1);
      assert Answers(n)[1..] == Answers(n - 1);
    }
  }

  /** Every other state after run() is at most two events away from one without a connection. */
  lemma CanLoseConnection(s: State) returns (events: seq<Event>)
    requires Inv(s) && !s.phase.BeforeRun?
    ensures |events| <= 2 && IsRun(s, events)
    ensures After(s, events).phase.Connecting? && After(s, events).exact == s.exact
  {
    match s.phase
    case Serving =>
      events := [LoseConnection];
      RunOfOne(s, LoseConnection, DoLoseConnection(s));
    case Connecting =>
      events := [];
    case Resubscribing(names, answered) =>
      if answered < |names| {
        events := [Relisten(false)];
        RunOfOne(s, Relisten(false), DoRelisten(s, false));
      } else {
        var t := DoSubscribed(s, true);
        StartNextFrame(s.(connReady := true, phase := Serving), true);
        events := [Subscribed(true)] + [LoseConnection];
        RunOfOne(t, LoseConnection, DoLoseConnection(t));
        RunOfCons(s, Subscribed(true), t, [LoseConnection]);
      }
  }

  lemma {:induction false} Listed(keys: set<Channel>) returns (names: seq<Channel>)
    ensures Members(names) == keys
    decreases |keys|
  {
    if keys == {} {
      names := [];
    } else {
      var c :| c in keys;
      var rest := Listed(keys - {c});
      names := rest + [c];
      MembersSnoc(rest, c);
      assert keys == (keys - {c}) + {c};
    }
  }

  /** No state after run() is beyond recovery: some continuation without any change
      of registrations makes the subscriptions those registered. */
  lemma AlwaysRecoverable(events: seq<Event>) returns (more: seq<Event>)
    requires IsRun(INIT, events) && !After(INIT, events).phase.BeforeRun?
    ensures IsRun(After(INIT, events), more)
    ensures var t := After(After(INIT, events), more); Quiet(t) && t.subs == After(INIT, events).exact.Keys
  {
    var s := After(INIT, events);
    RunKeeps(INIT, events);
    var down := CanLoseConnection(s);
    var d := After(s, down);
    RunsCompose(INIT, events, down);
    var names := Listed(s.exact.Keys);
    RecoversAfterReconnect(events + down, names, []);
    var answers := Answers(Backlog(After(d, Recovery(names))));
    AnswersServe(Backlog(After(d, Recovery(names))));
    RecoversAfterReconnect(events + down, names, answers);
    RunsCompose(d, Recovery(names), answers);
    RunsCompose(s, down, Recovery(names) + answers);
    more := down + (Recovery(names) + answers);
  }

  /** At most one statement is unanswered, and the run loop re-LISTENs only
      while none of the queued commands is on the wire. */
  lemma OneStatementAtATime(events: seq<Event>)
    requires IsRun(INIT, events)
    ensures var s := After(INIT, events);
            && (s.inflight.Some? ==> s.connReady && s.phase.Serving? && s.direct == multiset{})
            && (s.phase.Resubscribing? ==> s.inflight.None? && !s.connReady)
  {
    RunKeeps(INIT, events);
  }
}
