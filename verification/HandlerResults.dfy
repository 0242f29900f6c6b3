/** What the caller of add_handler learns: a handle, or none. */
module HandlerResults {
  import opened Wrappers
  import opened SubscriptionProtocol

  // ---------- handler ids ----------

  predicate NoRepeats(ids: seq<nat>) { forall i, j | 0 <= i < j < |ids| :: ids[i] != ids[j] }

  /** A registered id was drawn, is no longer to be registered, and is registered once. */
  ghost predicate IdsInv(s: State) {
    && (forall id | id in s.drawn :: 1 <= id < s.nextHandler)
    && 1 <= s.nextHandler
    && forall c: Channel | c in s.exact :: IdsOk(s, s.exact[c])
  }

  predicate IdsOk(s: State, ids: seq<nat>) {
    NoRepeats(ids) && forall id | id in ids :: 1 <= id < s.nextHandler && id !in s.drawn
  }

  lemma {:induction false} WithoutOnce(ids: seq<nat>, id: nat)
    requires NoRepeats(ids)
    ensures id !in Without(ids, id) && NoRepeats(Without(ids, id))
    ensures forall x | x in Without(ids, id) :: x in ids
    decreases |ids|
  {
    if ids != [] && ids[0] != id {
      WithoutOnce(ids[1..], id);
      assert ids[0] !in ids[1..];
    }
  }

  lemma AddKeepsIds(s: State, c: Channel, id: nat, sendOk: bool)
    requires IdsInv(s) && id in s.drawn
    ensures IdsInv(DoAddHandler(s, c, id, sendOk))
  {
    var r := Register(s, c, id);
    var others := if c in s.exact then s.exact[c] else [];
    assert IdsOk(s, others) && id !in others;
    assert IdsOk(r, others + [id]);
    forall d: Channel | d in r.exact ensures IdsOk(r, r.exact[d]) {
      if d != c { assert IdsOk(s, s.exact[d]); }
    }
    StartNextFrame(Enqueue(r, c, true), sendOk);
  }

  lemma UnlistenKeepsIds(s: State, c: Channel, sendOk: bool)
    requires IdsInv(s)
    ensures IdsInv(QueueUnlisten(Unregister(s, c), c, sendOk))
  {
    StartNextFrame(Enqueue(Unregister(s, c), c, false), sendOk);
  }

  lemma EraseKeepsIds(s: State, c: Channel, id: nat, sendOk: bool)
    requires IdsInv(s)
    ensures IdsInv(DoEraseHandler(s, c, id, sendOk))
  {
    UnlistenKeepsIds(s, c, sendOk);
    if c in s.exact { WithoutOnce(s.exact[c], id); }
  }

  lemma {:induction false} ReadRepliesKeepsIds(s: State, replies: seq<Reply>)
    ensures var t := ReadReplies(s, replies); t.exact == s.exact && t.drawn == s.drawn && t.nextHandler == s.nextHandler
    decreases |replies|
  {
    if s.inflight.Some? && replies != [] && !replies[0].EndOfReply? {
      ReadRepliesKeepsIds(if replies[0].Rejected? then s.(inflightOk := false) else s, replies[1..]);
    }
  }

  lemma StepKeepsIds(s: State, e: Event)
    requires IdsInv(s) && Enabled(s, e)
    ensures IdsInv(Step(s, e))
  {
    match e
    case DrawId =>
      var t := Step(s, e);
      forall c: Channel | c in t.exact ensures IdsOk(t, t.exact[c]) { assert IdsOk(s, s.exact[c]); }
    case AddHandler(c, id, sendOk) => AddKeepsIds(s, c, id, sendOk);
    case EraseHandler(c, id, sendOk) => EraseKeepsIds(s, c, id, sendOk);
    case RemoveChannel(c, sendOk) => UnlistenKeepsIds(s, c, sendOk);
    case DirectAnswered(c, ok) =>
    case StartRun(connected, sendOk) => StartNextFrame(s.(phase := Serving, connReady := connected), sendOk);
    case Drain(replies, sendOk) =>
      ReadRepliesKeepsIds(s, replies);
      StartNextFrame(ReadReplies(s, replies), sendOk);
    case LoseConnection =>
    case Reconnect(names) =>
    case Relisten(ok) =>
    case Subscribed(sendOk) => StartNextFrame(s.(connReady := true, phase := Serving), sendOk);
  }

  lemma {:induction false} RunKeepsIds(s: State, events: seq<Event>)
    requires IdsInv(s) && IsRun(s, events)
    ensures IdsInv(After(s, events))
    decreases |events|
  {
    if events != [] {
      StepKeepsIds(s, events[0]);
      RunKeepsIds(Step(s, events[0]), events[1..]);
    }
  }

  /** No handle: the cleanup leaves nothing of the handler behind. */
  lemma NothingStaysRegistered(events: seq<Event>, c: Channel, id: nat, sendOk: bool)
    requires IsRun(INIT, events)
    ensures var t := Step(After(INIT, events), EraseHandler(c, id, sendOk)); c in t.exact ==> id !in t.exact[c]
  {
    RunKeepsIds(INIT, events);
    var s := After(INIT, events);
    if c in s.exact {
      WithoutOnce(s.exact[c], id);
      StartNextFrame(Enqueue(Unregister(s, c), c, false), sendOk);
    }
  }

  // ---------- the answer to the LISTEN ----------

  /** What the end of a LISTEN says about its channel at that moment: refused; or
      subscribed; or nobody is registered on it any more, so it was not sent. */
  ghost predicate Meaning(t: State, cmd: Command) {
    if cmd in t.failed then cmd.channel in t.refused
    else cmd.channel in t.subs || cmd.channel !in t.exact
  }

  lemma {:induction false} StartNextCompletes(s: State, sendOk: bool, cmd: Command)
    requires cmd !in s.completed && cmd in StartNext(s, sendOk).completed
    ensures cmd.listen != (cmd.channel in s.exact)
    decreases |s.commands|
  {
    if s.inflight.None? && s.connReady && s.commands != [] && Superseded(s) && cmd != s.commands[0] {
      StartNextCompletes(Skip(s), sendOk, cmd);
    }
  }

  /** Reading replies completes at most the statement in flight. */
  lemma {:induction false} ReadRepliesEnds(s: State, replies: seq<Reply>, cmd: Command)
    requires cmd !in s.failed
    ensures var t := ReadReplies(s, replies);
            && (cmd in t.failed ==> s.inflight == Some(cmd) && cmd in t.completed)
            && (cmd !in s.completed && cmd in t.completed && cmd.listen ==> Meaning(t, cmd))
    decreases |replies|
  {
    if s.inflight.Some? && replies != [] && !replies[0].EndOfReply? {
      ReadRepliesEnds(if replies[0].Rejected? then s.(inflightOk := false) else s, replies[1..], cmd);
    }
  }

  /** A command that fails completes, so one that has not completed has not failed. */
  ghost predicate FailedInv(s: State) { forall cmd | cmd in s.failed :: cmd in s.completed }

  /** Every section in which StartNext is all that completes commands. */
  lemma SectionEnds(s: State, base: State, sendOk: bool, cmd: Command)
    requires base.completed == s.completed && base.failed == s.failed
    requires cmd.listen && cmd !in s.completed && cmd !in s.failed && cmd in StartNext(base, sendOk).completed
    ensures Meaning(StartNext(base, sendOk), cmd)
  {
    StartNextCompletes(base, sendOk, cmd);
    StartNextFrame(base, sendOk);
  }

  lemma CompletionMeans(s: State, e: Event, cmd: Command)
    requires Enabled(s, e) && FailedInv(s) && cmd.listen
    requires cmd !in s.completed && cmd in Step(s, e).completed
    ensures Meaning(Step(s, e), cmd)
  {
    match e
    case DrawId =>
    case AddHandler(c, id, sendOk) => SectionEnds(s, Enqueue(Register(s, c, id), c, true), sendOk, cmd);
    case EraseHandler(c, id, sendOk) => SectionEnds(s, Enqueue(Unregister(s, c), c, false), sendOk, cmd);
    case RemoveChannel(c, sendOk) => SectionEnds(s, Enqueue(Unregister(s, c), c, false), sendOk, cmd);
    case DirectAnswered(c, ok) =>
    case StartRun(connected, sendOk) => SectionEnds(s, s.(phase := Serving, connReady := connected), sendOk, cmd);
    case Drain(replies, sendOk) => DrainMeans(s, replies, sendOk, cmd);
    case LoseConnection =>
    case Reconnect(names) =>
    case Relisten(ok) =>
    case Subscribed(sendOk) => SectionEnds(s, s.(connReady := true, phase := Serving), sendOk, cmd);
  }

  lemma DrainMeans(s: State, replies: seq<Reply>, sendOk: bool, cmd: Command)
    requires cmd.listen && cmd !in s.completed && cmd !in s.failed && cmd in DoDrain(s, replies, sendOk).completed
    ensures Meaning(DoDrain(s, replies, sendOk), cmd)
  {
    var r := ReadReplies(s, replies);
    ReadRepliesEnds(s, replies, cmd);
    StartNextFrame(r, sendOk);
    if cmd !in r.completed { SectionEnds(r, r, sendOk, cmd); }
  }

  /** A completed command keeps its result, and only a statement in flight can fail. */
  lemma StepFails(s: State, e: Event, cmd: Command)
    requires Enabled(s, e) && cmd !in s.failed && cmd in Step(s, e).failed
    ensures s.inflight == Some(cmd) && cmd in Step(s, e).completed
  {
    match e
    case DrawId =>
    case AddHandler(c, id, sendOk) => StartNextFrame(Enqueue(Register(s, c, id), c, true), sendOk);
    case EraseHandler(c, id, sendOk) => StartNextFrame(Enqueue(Unregister(s, c), c, false), sendOk);
    case RemoveChannel(c, sendOk) => StartNextFrame(Enqueue(Unregister(s, c), c, false), sendOk);
    case DirectAnswered(c, ok) =>
    case StartRun(connected, sendOk) => StartNextFrame(s.(phase := Serving, connReady := connected), sendOk);
    case Drain(replies, sendOk) =>
      ReadRepliesEnds(s, replies, cmd);
      StartNextFrame(ReadReplies(s, replies), sendOk);
      StartNextLedger(ReadReplies(s, replies), sendOk);
    case LoseConnection =>
    case Reconnect(names) =>
    case Relisten(ok) =>
    case Subscribed(sendOk) => StartNextFrame(s.(connReady := true, phase := Serving), sendOk);
  }

  lemma {:induction false} FailedGrow(s: State, e: Event)
    requires Enabled(s, e)
    ensures s.failed <= Step(s, e).failed
  {
    match e
    case DrawId =>
    case AddHandler(c, id, sendOk) => StartNextFrame(Enqueue(Register(s, c, id), c, true), sendOk);
    case EraseHandler(c, id, sendOk) => StartNextFrame(Enqueue(Unregister(s, c), c, false), sendOk);
    case RemoveChannel(c, sendOk) => StartNextFrame(Enqueue(Unregister(s, c), c, false), sendOk);
    case DirectAnswered(c, ok) =>
    case StartRun(connected, sendOk) => StartNextFrame(s.(phase := Serving, connReady := connected), sendOk);
    case Drain(replies, sendOk) =>
      ReadRepliesFailed(s, replies);
      StartNextFrame(ReadReplies(s, replies), sendOk);
    case LoseConnection =>
    case Reconnect(names) =>
    case Relisten(ok) =>
    case Subscribed(sendOk) => StartNextFrame(s.(connReady := true, phase := Serving), sendOk);
  }

  lemma {:induction false} ReadRepliesFailed(s: State, replies: seq<Reply>)
    ensures s.failed <= ReadReplies(s, replies).failed
    decreases |replies|
  {
    if s.inflight.Some? && replies != [] && !replies[0].EndOfReply? {
      ReadRepliesFailed(if replies[0].Rejected? then s.(inflightOk := false) else s, replies[1..]);
    }
  }

  lemma StepKeepsFailed(s: State, e: Event)
    requires FailedInv(s) && Enabled(s, e)
    ensures FailedInv(Step(s, e))
  {
    StepIssues(s, e);
    forall cmd | cmd in Step(s, e).failed ensures cmd in Step(s, e).completed {
      if cmd !in s.failed { StepFails(s, e, cmd); }
    }
  }

  lemma {:induction false} RunKeepsFailed(s: State, events: seq<Event>)
    requires FailedInv(s) && IsRun(s, events)
    ensures FailedInv(After(s, events))
    decreases |events|
  {
    if events != [] {
      StepKeepsFailed(s, events[0]);
      RunKeepsFailed(Step(s, events[0]), events[1..]);
    }
  }

  /** Result by result: a completed LISTEN completed at one event of the run, what the
      caller reads afterwards is what that event decided, and it meant then what
      Meaning says. */
  lemma {:induction false} HandleMeans(events: seq<Event>, cmd: Command) returns (k: nat)
    requires IsRun(INIT, events) && cmd.listen && cmd in After(INIT, events).completed
    ensures k < |events| && IsRun(INIT, events[..k]) && IsRun(INIT, events[..k + 1])
    ensures cmd !in After(INIT, events[..k]).completed && cmd in After(INIT, events[..k + 1]).completed
    ensures Meaning(After(INIT, events[..k + 1]), cmd)
    ensures cmd in After(INIT, events).failed <==> cmd in After(INIT, events[..k + 1]).failed
    decreases |events|
  {
    var n := |events| - 1;
    LastOfRun(INIT, events);
    var before, e := events[..n], events[n];
    var s := After(INIT, before);
    RunKeepsFailed(INIT, before);
    assert events[..n + 1] == events;
    if cmd in s.completed {
      k := HandleMeans(before, cmd);
      assert before[..k] == events[..k] && before[..k + 1] == events[..k + 1];
      ResultIsFinal(before, e, cmd);
    } else {
      k := n;
      CompletionMeans(s, e, cmd);
    }
  }

  /** A finished command is not in flight again, so its result stands. */
  lemma ResultIsFinal(before: seq<Event>, e: Event, cmd: Command)
    requires IsRun(INIT, before) && Enabled(After(INIT, before), e) && cmd in After(INIT, before).completed
    ensures cmd in Step(After(INIT, before), e).failed <==> cmd in After(INIT, before).failed
  {
    var s := After(INIT, before);
    RunLedger(INIT, before);
    InOnePlace(s, cmd);
    FailedGrow(s, e);
    if cmd !in s.failed && cmd in Step(s, e).failed { StepFails(s, e, cmd); }
  }

  // ---------- the answer to a LISTEN sent directly ----------

  /** Before run() an event only adds subscriptions, and there is no way back to before run(). */
  lemma BeforeRunKeepsSubs(s: State, e: Event)
    requires Enabled(s, e) && Step(s, e).phase.BeforeRun?
    ensures s.phase.BeforeRun? && s.subs <= Step(s, e).subs
  {
    match e
    case DrawId =>
    case AddHandler(c, id, sendOk) => StartNextFrame(Enqueue(Register(s, c, id), c, true), sendOk);
    case EraseHandler(c, id, sendOk) => StartNextFrame(Enqueue(Unregister(s, c), c, false), sendOk);
    case RemoveChannel(c, sendOk) => StartNextFrame(Enqueue(Unregister(s, c), c, false), sendOk);
    case DirectAnswered(c, ok) =>
    case StartRun(connected, sendOk) => StartNextFrame(s.(phase := Serving, connReady := connected), sendOk);
    case Drain(replies, sendOk) =>
      ReadRepliesPhase(s, replies);
      StartNextFrame(ReadReplies(s, replies), sendOk);
    case LoseConnection =>
    case Reconnect(names) =>
    case Relisten(ok) =>
    case Subscribed(sendOk) => StartNextFrame(s.(connReady := true, phase := Serving), sendOk);
  }

  /** What the caller of a direct LISTEN reads: an acceptance means subscribed at that
      moment and for as long as run() has not begun, a refusal leaves the channel refused. */
  lemma {:induction false} DirectHandleMeans(events: seq<Event>, k: nat)
    requires IsRun(INIT, events) && k < |events| && events[k].DirectAnswered?
    ensures IsRun(INIT, events[..k]) && events[k].channel in After(INIT, events[..k]).direct
    ensures IsRun(INIT, events[..k + 1])
    ensures var t := After(INIT, events[..k + 1]);
            if events[k].ok then events[k].channel in t.subs && events[k].channel !in t.refused
            else events[k].channel in t.refused
    ensures events[k].ok && After(INIT, events).phase.BeforeRun? ==> events[k].channel in After(INIT, events).subs
    decreases |events|
  {
    var n := |events| - 1;
    LastOfRun(INIT, events);
    var before := events[..n];
    assert events[..n + 1] == events;
    if k < n {
      DirectHandleMeans(before, k);
      assert before[..k] == events[..k] && before[..k + 1] == events[..k + 1];
      if After(INIT, events).phase.BeforeRun? { BeforeRunKeepsSubs(After(INIT, before), events[n]); }
    }
  }

  // ---------- a handle without a subscription ----------

  /** A second handler gets its handle at once, without waiting for the LISTEN of the
      first. When that LISTEN is refused the first one goes and the second stays:
      registered, at rest, and not subscribed. A reconnect repairs it. */
  lemma RefusedListenStrandsSecond(c: Channel)
    ensures var events := [StartRun(true, true), DrawId, DrawId, AddHandler(c, 1, true)]
                          + [AddHandler(c, 2, true), Drain([Rejected, EndOfReply], true), EraseHandler(c, 1, true)];
            && IsRun(INIT, events)
            && Quiet(After(INIT, events))
            && After(INIT, events).exact == map[c := [2]]
            && After(INIT, events).subs == {}
  {
    var s1 := INIT.(phase := Serving, connReady := true);
    var s2 := s1.(nextHandler := 2, drawn := {1});
    var s3 := s1.(nextHandler := 3, drawn := {1, 2});
    var cmd := Command(0, c, true);
    var s4 := s3.(exact := map[c := [1]], drawn := {2}, nextCommand := 1, inflight := Some(cmd), inflightOk := true);
    var rest := [AddHandler(c, 2, true), Drain([Rejected, EndOfReply], true), EraseHandler(c, 1, true)];
    ListenIsSent(s3, c, 1);
    assert s3.exact[c := [1]] == map[c := [1]] && s3.drawn - {1} == {2};
    RefusedAfterSecond(s4, c, cmd);
    RunOfCons(s3, AddHandler(c, 1, true), s4, rest);
    RunOfCons(s2, DrawId, s3, [AddHandler(c, 1, true)] + rest);
    RunOfCons(s1, DrawId, s2, [DrawId] + ([AddHandler(c, 1, true)] + rest));
    RunOfCons(INIT, StartRun(true, true), s1, [DrawId] + ([DrawId] + ([AddHandler(c, 1, true)] + rest)));
    assert [StartRun(true, true), DrawId, DrawId, AddHandler(c, 1, true)] + rest
        == [StartRun(true, true)] + ([DrawId] + ([DrawId] + ([AddHandler(c, 1, true)] + rest)));
  }

  lemma ListenIsSent(s: State, c: Channel, id: nat)
    requires s.phase.Serving? && s.connReady && s.inflight.None? && s.commands == [] && c !in s.exact && id in s.drawn
    ensures DoAddHandler(s, c, id, true)
         == s.(exact := s.exact[c := [id]], drawn := s.drawn - {id}, nextCommand := s.nextCommand + 1,
               inflight := Some(Command(s.nextCommand, c, true)), inflightOk := true)
  {
    var r := Register(s, c, id);
    assert [] + [id] == [id] && r.exact == s.exact[c := [id]];
    var q := Enqueue(r, c, true);
    assert q.commands == [Command(s.nextCommand, c, true)] && q.commands[1..] == [];
  }

  lemma RefusedAfterSecond(s: State, c: Channel, cmd: Command)
    requires s.phase.Serving? && s.connReady && s.commands == [] && s.exact == map[c := [1]] && s.drawn == {2}
    requires s.inflight == Some(cmd) && cmd == Command(0, c, true) && s.subs == {}
    ensures var rest := [AddHandler(c, 2, true), Drain([Rejected, EndOfReply], true), EraseHandler(c, 1, true)];
            && IsRun(s, rest)
            && Quiet(After(s, rest)) && After(s, rest).exact == map[c := [2]] && After(s, rest).subs == {}
  {
    var s1 := s.(exact := map[c := [1, 2]], drawn := {});
    assert [1] + [2] == [1, 2] && s.drawn - {2} == {};
    assert DoAddHandler(s, c, 2, true) == s1;
    var drain, erase := Drain([Rejected, EndOfReply], true), EraseHandler(c, 1, true);
    RefusalCompletes(s1);
    var s2 := DoDrain(s1, drain.replies, true);
    assert Without([1, 2], 1) == [2] by { assert [1, 2][1..] == [2]; }
    var s3 := s2.(exact := map[c := [2]]);
    assert DoEraseHandler(s2, c, 1, true) == s3 by { assert s2.exact[c := [2]] == map[c := [2]]; }
    RunOfOne(s2, erase, s3);
    RunOfCons(s1, drain, s2, [erase]);
    RunOfCons(s, AddHandler(c, 2, true), s1, [drain, erase]);
  }

  // ---------- refused and subscribed all the same ----------

  /** After a refused UNLISTEN the channel is registered again and that LISTEN is
      refused, too: the subscription of old is still there. A refusal on record does
      not mean that a registered channel is not subscribed. */
  lemma RefusedYetSubscribed(c: Channel)
    ensures var events := [DrawId, AddHandler(c, 1, true), DirectAnswered(c, true), StartRun(true, true),
                           RemoveChannel(c, true), Drain([Rejected, EndOfReply], true)]
                          + [DrawId, AddHandler(c, 2, true), Drain([Rejected, EndOfReply], true)];
            && IsRun(INIT, events)
            && Quiet(After(INIT, events))
            && After(INIT, events).exact == map[c := [2]]
            && After(INIT, events).subs == {c} && c in After(INIT, events).refused
  {
    var before := [DrawId, AddHandler(c, 1, true), DirectAnswered(c, true), StartRun(true, true),
                   RemoveChannel(c, true), Drain([Rejected, EndOfReply], true)];
    RefusedUnlistenStays(c);
    RunKeeps(INIT, before);
    var s := After(INIT, before);
    var drain := Drain([Rejected, EndOfReply], true);
    var s1 := Step(s, DrawId);
    ListenIsSent(s1, c, 2);
    var s2 := DoAddHandler(s1, c, 2, true);
    RefusalCompletes(s2);
    RunOfOne(s2, drain, DoDrain(s2, drain.replies, true));
    RunOfCons(s1, AddHandler(c, 2, true), s2, [drain]);
    RunOfCons(s, DrawId, s1, [AddHandler(c, 2, true), drain]);
    assert [DrawId] + [AddHandler(c, 2, true), drain] == [DrawId, AddHandler(c, 2, true), drain];
    RunsCompose(INIT, before, [DrawId, AddHandler(c, 2, true), drain]);
  }
}
