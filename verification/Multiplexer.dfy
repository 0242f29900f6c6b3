/** The notification multiplexer as the object it is: each method is one
    critical section, proved to take the object's view from one state of
    SubscriptionProtocol to the next. The ghost fields are the server's side. */
module Multiplexer {
  import opened Wrappers
  import opened SubscriptionProtocol

  /** "a.b.*" matches channels LISTENed to anyway and has no LISTEN of its own. */
  predicate IsWildcard(ch: Channel) {
    |ch| >= 2 && ch[|ch| - 1] == '*' && ch[|ch| - 2] == '.'
  }

  ghost predicate NoneEmpty(exact: map<Channel, seq<nat>>) { forall c: Channel | c in exact :: exact[c] != [] }

  class Mux {
    var exact: map<Channel, seq<nat>>
    var wildcard: map<Channel, seq<nat>>
    var nextHandler: nat
    var commands: seq<Command>
    var issued: nat
    var inflight: Option<Command>
    var inflightOk: bool
    var running: bool
    var connReady: bool
    var directBusy: nat
    var names: seq<Channel>  // resubscribe_all(): the channels to LISTEN to, and how many are answered
    var position: nat

    ghost var phase: Phase
    ghost var direct: multiset<Channel>
    ghost var completed: seq<Command>
    ghost var subs: set<Channel>
    ghost var refused: set<Channel>
    ghost var drawn: set<nat>
    ghost var failed: set<Command>

    /** A channel stays registered as long as it has handlers, and no longer. */
    ghost predicate Valid()
      reads this
    {
      && running == !phase.BeforeRun? && directBusy == |direct|
      && NoneEmpty(exact) && NoneEmpty(wildcard)
      && (phase.Resubscribing? ==> phase == Resubscribing(names, position))
    }

    ghost function View(): State
      reads this
    {
      State(exact, nextHandler, commands, issued, inflight, inflightOk, connReady,
            phase, direct, completed, subs, refused, drawn, failed)
    }

    constructor ()
      ensures Valid() && View() == INIT && wildcard == map[]
    {
      exact, wildcard, nextHandler := map[], map[], 1;
      commands, issued, inflight, inflightOk := [], 0, None, true;
      running, connReady, directBusy, names, position := false, false, 0, [], 0;
      phase, direct, completed, subs, refused := BeforeRun, multiset{}, [], {}, {};
      drawn, failed := {}, {};
    }

    method SkipHead()
      requires commands != []
      modifies this`commands, this`completed
      ensures View() == Skip(old(View()))
    {
      completed := completed + [commands[0]];
      commands := commands[1..];
    }

    method SendHead()
      requires commands != []
      modifies this`commands, this`inflight, this`inflightOk
      ensures View() == Send(old(View()))
    {
      inflight, inflightOk := Some(commands[0]), true;
      commands := commands[1..];
    }

    /** Takes the view through StartNext; `done` are the commands it completed on the
        way, in queue order, for the caller to announce. */
    method StartNextCommand(sendOk: bool) returns (done: seq<Command>)
      requires Valid()
      modifies this`commands, this`inflight, this`inflightOk, this`connReady, this`completed
      ensures Valid() && View() == StartNext(old(View()), sendOk)
      ensures completed == old(completed) + done
    {
      done := [];
      ghost var s := View();
      while inflight.None? && connReady && commands != []
        invariant s == View() && StartNext(s, sendOk) == StartNext(old(View()), sendOk)
        invariant completed == old(completed) + done
        decreases inflight.None?, connReady, |commands|
      {
        var cmd := commands[0];
        if cmd.listen != (cmd.channel in exact) {
          SkipHead();
          done := done + [cmd];
        } else if sendOk {
          SendHead();
        } else {
          connReady := false;
        }
        s := View();
      }
    }

    method PushAndStart(channel: Channel, listen: bool, sendOk: bool) returns (done: seq<Command>)
      requires Valid()
      modifies this`commands, this`issued, this`inflight, this`inflightOk, this`connReady, this`completed
      ensures Valid() && View() == StartNext(Enqueue(old(View()), channel, listen), sendOk)
      ensures completed == old(completed) + done
    {
      PushCommand(channel, listen);
      done := StartNextCommand(sendOk);
    }

    method PushCommand(channel: Channel, listen: bool)
      modifies this`commands, this`issued
      ensures View() == Enqueue(old(View()), channel, listen)
    {
      commands := commands + [Command(issued, channel, listen)];
      issued := issued + 1;
    }

    /** Before run(): the caller is about to send its LISTEN itself. */
    method DirectListenStarts(channel: Channel)
      requires Valid()
      modifies this`directBusy, this`direct
      ensures Valid() && direct == old(direct) + multiset{channel}
    {
      directBusy := directBusy + 1;
      direct := direct + multiset{channel};
    }

    method RegisterHandler(channel: Channel, id: nat)
      modifies this`exact, this`drawn
      ensures View() == Register(old(View()), channel, id)
      ensures exact == old(exact)[channel := (if channel in old(exact) then old(exact)[channel] else []) + [id]]
    {
      var handlers := if channel in exact then exact[channel] else [];
      exact := exact[channel := handlers + [id]];
      drawn := drawn - {id};
    }

    /** Handler ids are drawn before the lock is taken, so other calls may draw in between. */
    method NextHandlerId() returns (id: nat)
      requires Valid()
      modifies this`nextHandler, this`drawn
      ensures Valid() && View() == Step(old(View()), DrawId) && id == old(nextHandler)
    {
      id := nextHandler;
      nextHandler := nextHandler + 1;
      drawn := drawn + {id};
    }

    /** The section of add_handler() for an exact channel. `first` says whether
        the call now has to wait for a LISTEN: queued, or its own before run(). */
    method AddExact(channel: Channel, id: nat, sendOk: bool) returns (first: bool, done: seq<Command>)
      requires Valid()
      modifies this
      ensures Valid() && View() == DoAddHandler(old(View()), channel, id, sendOk) && wildcard == old(wildcard)
      ensures exact == old(exact)[channel := (if channel in old(exact) then old(exact)[channel] else []) + [id]]
      ensures first <==> channel !in old(exact)
      ensures completed == old(completed) + done
    {
      done := [];
      first := channel !in exact;
      RegisterHandler(channel, id);
      if first && running {
        done := PushAndStart(channel, true, sendOk);
      } else if first {
        DirectListenStarts(channel);
      }
    }

    method AddWildcard(channel: Channel, id: nat)
      requires Valid()
      modifies this`wildcard
      ensures Valid() && View() == old(View())
      ensures var others := if channel in old(wildcard) then old(wildcard)[channel] else [];
              wildcard == old(wildcard)[channel := others + [id]]
    {
      wildcard := wildcard[channel := (if channel in wildcard then wildcard[channel] else []) + [id]];
    }

    /** add_handler() with the id it drew, up to its first suspension. */
    method AddHandler(channel: Channel, id: nat, sendOk: bool) returns (first: bool, done: seq<Command>)
      requires Valid() && id in drawn
      modifies this
      ensures Valid() && completed == old(completed) + done
      ensures IsWildcard(channel) ==> !first && View() == old(View())
      ensures IsWildcard(channel) ==>
                var others := if channel in old(wildcard) then old(wildcard)[channel] else [];
                wildcard == old(wildcard)[channel := others + [id]]
      ensures !IsWildcard(channel) ==>
                View() == Step(old(View()), Event.AddHandler(channel, id, sendOk)) && wildcard == old(wildcard)
      ensures !IsWildcard(channel) ==>
                exact == old(exact)[channel := (if channel in old(exact) then old(exact)[channel] else []) + [id]]
      ensures !IsWildcard(channel) ==> (first <==> channel !in old(exact))
    {
      if IsWildcard(channel) {
        first, done := false, [];
        AddWildcard(channel, id);
      } else {
        first, done := AddExact(channel, id, sendOk);
      }
    }

    /** The search of erase_handler. */
    method EraseFrom(handlers: seq<nat>, id: nat) returns (left: seq<nat>, erased: bool)
      ensures left == Without(handlers, id)
      ensures erased <==> id in handlers
      ensures erased ==> exists i | 0 <= i < |handlers| ::
                handlers[i] == id && id !in handlers[..i] && left == handlers[..i] + handlers[i + 1..]
      ensures !erased ==> left == handlers
    {
      var i := 0;
      while i < |handlers|
        invariant i <= |handlers| && id !in handlers[..i]
        invariant Without(handlers, id) == handlers[..i] + Without(handlers[i..], id)
      {
        if handlers[i] == id {
          return handlers[..i] + handlers[i + 1..], true;
        }
        i := i + 1;
      }
      return handlers, false;
    }

    method QueueUnlistenLocked(channel: Channel, sendOk: bool) returns (done: seq<Command>)
      requires Valid()
      modifies this
      ensures Valid() && View() == QueueUnlisten(old(View()), channel, sendOk) && wildcard == old(wildcard)
      ensures completed == old(completed) + done
    {
      done := [];
      if running {
        done := PushAndStart(channel, false, sendOk);
      } else {
        PushCommand(channel, false);
      }
    }

    /** remove_handler(), and the cleanup of an add_handler() whose LISTEN failed. */
    method RemoveHandler(channel: Channel, id: nat, isWildcard: bool, sendOk: bool)
      returns (removed: bool, done: seq<Command>)
      requires Valid()
      modifies this
      ensures Valid() && completed == old(completed) + done
      ensures isWildcard ==> View() == old(View())
      ensures isWildcard ==>
                removed == (channel in old(wildcard) && id in old(wildcard)[channel])
      ensures isWildcard && removed ==>
                var left := Without(old(wildcard)[channel], id);
                wildcard == if left == [] then old(wildcard) - {channel} else old(wildcard)[channel := left]
      ensures isWildcard && !removed ==> wildcard == old(wildcard)
      ensures !isWildcard ==> View() == DoEraseHandler(old(View()), channel, id, sendOk) && wildcard == old(wildcard)
      ensures !isWildcard ==> removed == (channel in old(exact) && id in old(exact)[channel])
    {
      done := [];
      removed := false;
      var left;
      if isWildcard {
        if channel in wildcard {
          left, removed := EraseFrom(wildcard[channel], id);
          wildcard := if left == [] then wildcard - {channel} else wildcard[channel := left];
        }
      } else if channel in exact {
        left, removed := EraseFrom(exact[channel], id);
        if removed && left != [] {
          exact := exact[channel := left];
        } else if removed {
          exact := exact - {channel};
          done := QueueUnlistenLocked(channel, sendOk);
        }
      }
    }

    method RemoveChannel(channel: Channel, sendOk: bool) returns (removed: bool, done: seq<Command>)
      requires Valid()
      modifies this
      ensures Valid() && completed == old(completed) + done
      ensures IsWildcard(channel) ==>
                View() == old(View()) && wildcard == old(wildcard) - {channel} && removed == (channel in old(wildcard))
      ensures !IsWildcard(channel) ==>
                && View() == DoRemoveChannel(old(View()), channel, sendOk) && wildcard == old(wildcard)
                && removed == (channel in old(exact))
    {
      done := [];
      if IsWildcard(channel) {
        removed := channel in wildcard;
        wildcard := wildcard - {channel};
        return;
      }
      removed := channel in exact;
      if removed {
        exact := exact - {channel};
        done := QueueUnlistenLocked(channel, sendOk);
      }
    }

    /** The server's side of an answered statement. */
    ghost method ServerAnswers(cmd: Command, ok: bool)
      modifies this`subs, this`refused
      ensures View() == Answer(old(View()), cmd, ok)
    {
      if ok {
        subs, refused := Apply(subs, cmd), refused - {cmd.channel};
      } else {
        refused := refused + {cmd.channel};
      }
    }

    /** A LISTEN that add_handler() sent itself, before run(), is answered. */
    method DirectListenAnswered(channel: Channel, ok: bool)
      requires Valid() && Enabled(View(), DirectAnswered(channel, ok))
      modifies this
      ensures Valid() && View() == DoDirectAnswered(old(View()), channel, ok) && wildcard == old(wildcard)
    {
      ServerAnswers(Command(0, channel, true), ok);
      directBusy := directBusy - 1;
      direct := direct - multiset{channel};
    }

    /** run() takes over once no direct LISTEN is pending. */
    method StartRunLoop(connected: bool, sendOk: bool) returns (started: bool, done: seq<Command>)
      requires Valid() && phase.BeforeRun?
      modifies this
      ensures Valid() && wildcard == old(wildcard) && completed == old(completed) + done
      ensures started <==> old(direct) == multiset{}
      ensures View() == if started then DoStartRun(old(View()), connected, sendOk) else old(View())
    {
      done := [];
      started := directBusy == 0;
      if started {
        running := true;
        phase := Serving;
        connReady := connected;
        done := StartNextCommand(sendOk);
      }
    }

    /** The end of a reply: the statement is finished, and the server's side known. */
    method FinishInflight() returns (cmd: Command)
      requires Valid() && inflight.Some?
      modifies this`inflight, this`completed, this`subs, this`refused, this`failed
      ensures Valid() && View() == ReadReplies(old(View()), [EndOfReply])
      ensures old(inflight) == Some(cmd) && completed == old(completed) + [cmd]
    {
      cmd := inflight.value;
      ServerAnswers(cmd, inflightOk);
      completed := completed + [cmd];
      failed := if inflightOk then failed else failed + {cmd};
      inflight := None;
    }

    /** The reply loop of drain_locked: results up to the end of the reply, or
        until libpq is busy again. */
    method ReadReply(replies: seq<Reply>) returns (done: seq<Command>)
      requires Valid()
      modifies this`inflight, this`inflightOk, this`completed, this`subs, this`refused, this`failed
      ensures Valid() && View() == ReadReplies(old(View()), replies)
      ensures completed == old(completed) + done
    {
      done := [];
      var k := 0;
      ghost var s := View();
      while inflight.Some? && k < |replies|
        invariant 0 <= k <= |replies| && Valid()
        invariant s == View() && ReadReplies(s, replies[k..]) == ReadReplies(old(View()), replies)
        invariant completed == old(completed) + done
        decreases inflight.Some?, |replies| - k
      {
        assert replies[k..][1..] == replies[k + 1..];
        match replies[k] {
          case Accepted =>
          case Rejected => inflightOk := false;
          case EndOfReply =>
            var cmd := FinishInflight();
            done := done + [cmd];
        }
        k := k + 1;
        s := View();
      }
    }

    /** drain_locked after its notifications: the reply to the statement in flight, then the next command. */
    method DrainReplies(replies: seq<Reply>, sendOk: bool) returns (done: seq<Command>)
      requires Valid()
      modifies this
      ensures Valid() && View() == DoDrain(old(View()), replies, sendOk) && wildcard == old(wildcard)
      ensures completed == old(completed) + done
    {
      done := ReadReply(replies);
      var more := StartNextCommand(sendOk);
      done := done + more;
    }

    /** Leaves no statement in flight: an unanswered one becomes the head of the queue,
        before everything issued later. */
    method ConnectionLost()
      requires Valid() && phase.Serving?
      modifies this
      ensures Valid() && View() == DoLoseConnection(old(View())) && wildcard == old(wildcard)
    {
      connReady := false;
      phase := Connecting;
      if inflight.Some? {
        commands := [inflight.value] + commands;
        inflight := None;
      }
    }

    /** Collects the names resubscribe_all() will LISTEN to. */
    method CollectNames() returns (list: seq<Channel>)
      ensures Members(list) == exact.Keys && |list| == |exact.Keys|
    {
      list := [];
      var rest := exact.Keys;
      while rest != {}
        invariant rest <= exact.Keys && Members(list) == exact.Keys - rest && |list| + |rest| == |exact.Keys|
        decreases |rest|
      {
        var c :| c in rest;
        MembersSnoc(list, c);
        list := list + [c];
        rest := rest - {c};
      }
    }

    /** A new session knows no subscription; every channel registered now is to be
        LISTENed to, each once. */
    method SnapshotChannels()
      requires Valid() && phase.Connecting?
      modifies this`names, this`position, this`phase, this`subs, this`refused
      ensures Members(names) == exact.Keys && |names| == |exact.Keys| && position == 0
      ensures Valid() && View() == DoReconnect(old(View()), names)
    {
      names := CollectNames();
      position := 0;
      SessionStarts(names);
    }

    ghost method SessionStarts(list: seq<Channel>)
      modifies this`phase, this`subs, this`refused
      ensures View() == DoReconnect(old(View()), list)
    {
      phase := Resubscribing(list, 0);
      subs, refused := {}, {};
    }

    /** The channel whose LISTEN is sent next, if any is left. */
    method NextToRelisten() returns (name: Option<Channel>)
      requires Valid() && phase.Resubscribing?
      ensures name.Some? <==> phase.answered < |phase.names|
      ensures name.Some? ==> name.value == phase.names[phase.answered]
    {
      name := if position < |names| then Some(names[position]) else None;
    }

    /** An answer to that LISTEN; a refusal gives the connection up. */
    method RelistenAnswered(ok: bool) returns (goOn: bool)
      requires Valid() && Enabled(View(), Relisten(ok))
      modifies this`position, this`phase, this`subs
      ensures Valid() && View() == Step(old(View()), Relisten(ok)) && goOn == ok
      ensures ok ==> position == old(position) + 1
    {
      goOn := ok;
      if ok {
        subs := subs + {names[position]};
        position := position + 1;
        phase := Resubscribing(names, position);
      } else {
        phase := Connecting;
      }
    }

    /** resubscribe_all() on its own, without registrations in between: it succeeds
        exactly when every LISTEN is accepted, and then the session is subscribed
        to exactly the registered channels. */
    method ResubscribeAll(accepts: Channel -> bool) returns (subscribed: bool)
      requires Valid() && phase.Connecting?
      modifies this`names, this`position, this`phase, this`subs, this`refused
      ensures Valid() && subscribed == forall c | c in exact :: accepts(c)
      ensures subscribed ==> phase.Resubscribing? && phase.answered == |phase.names| && subs == exact.Keys
      ensures !subscribed ==> phase.Connecting?
    {
      SnapshotChannels();
      while position < |names|
        invariant Valid() && phase.Resubscribing? && position <= |names| && Members(names) == exact.Keys
        invariant subs == Members(names[..position]) && forall c | c in names[..position] :: accepts(c)
      {
        var name := NextToRelisten();
        assert names[..position + 1] == names[..position] + [names[position]];
        MembersSnoc(names[..position], names[position]);
        assert names[position] in Members(names);
        var goOn := RelistenAnswered(accepts(name.value));
        if !goOn {
          return false;
        }
      }
      assert names[..position] == names;
      assert forall c | c in exact :: c in Members(names);
      subscribed := true;
    }

    method BackInService(sendOk: bool) returns (done: seq<Command>)
      requires Valid() && Enabled(View(), Subscribed(sendOk))
      modifies this
      ensures Valid() && View() == DoSubscribed(old(View()), sendOk) && wildcard == old(wildcard)
      ensures completed == old(completed) + done
    {
      connReady := true;
      phase := Serving;
      done := StartNextCommand(sendOk);
    }
  }
}
