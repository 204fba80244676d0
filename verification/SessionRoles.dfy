/**
 Where the two roles come from matters.  An end takes its role from the relay's ACK, and neither the session key nor
 the spoken code depends on it.  Here the roles of the two ends are a parameter: no run uses a nonce twice exactly when
 they differ.
 */
module SessionRoles {
  import opened Bytes
  import opened Nonce
  import opened Wire
  import opened Channel
  import opened Session
  import opened SessionSafety

  /** The two ends of a session, whatever roles they hold. */
  datatype End = First | Second

  datatype Ends = Ends(first: Endpoint, second: Endpoint, log: seq<Frame>, nextPair: nat) {
    function At(end: End): Endpoint {
      if end == First then first else second
    }
  }

  /** The roles the relay handed out. */
  datatype Roles = Roles(first: Role, second: Role) {
    function Of(end: End): Role {
      if end == First then first else second
    }
  }

  datatype EndEvent = EndEvent(end: End, action: Action)

  function StepAs(roles: Roles, w: Ends, ev: EndEvent): Ends {
    var x := Act(roles.Of(ev.end), w.At(ev.end), ev.action, w.log, w.nextPair);
    var log := if x.sealed.Some? then w.log + [x.sealed.value] else w.log;
    if ev.end == First then Ends(x.e, w.second, log, w.nextPair + x.pairs)
    else Ends(w.first, x.e, log, w.nextPair + x.pairs)
  }

  const Apart := Ends(Endpoint(None, None), Endpoint(None, None), [], 0)

  function RunAs(roles: Roles, events: seq<EndEvent>): Ends {
    if events == [] then Apart else StepAs(roles, RunAs(roles, events[..|events| - 1]), events[|events| - 1])
  }

  // ---- different roles: the session machine -----------------------------------------------------------

  function AsWorld(roles: Roles, w: Ends): World {
    if roles.first == Initiator then World(w.first, w.second, w.log, w.nextPair)
    else World(w.second, w.first, w.log, w.nextPair)
  }

  function AsEvents(roles: Roles, events: seq<EndEvent>): seq<Event> {
    seq(|events|, i requires 0 <= i < |events| => Event(roles.Of(events[i].end), events[i].action))
  }

  lemma StepAsStep(roles: Roles, w: Ends, ev: EndEvent)
    requires roles.first != roles.second
    ensures AsWorld(roles, StepAs(roles, w, ev)) == Step(AsWorld(roles, w), Event(roles.Of(ev.end), ev.action))
  {
    hide Act;
  }

  lemma {:induction false} RunAsRun(roles: Roles, events: seq<EndEvent>)
    requires roles.first != roles.second
    ensures AsWorld(roles, RunAs(roles, events)) == Run(AsEvents(roles, events))
  {
    if events != [] {
      var n := |events| - 1;
      RunAsRun(roles, events[..n]);
      assert AsEvents(roles, events)[..n] == AsEvents(roles, events[..n]);
      StepAsStep(roles, RunAs(roles, events[..n]), events[n]);
      hide StepAs, Step, AsWorld;
    }
  }

  // ---- one role for both: both take counter 1 in the same direction -----------------------------------------

  /** Both ends boot, agree on a key and send one text each. */
  const BothSend := [
    EndEvent(First, Boot(true)), EndEvent(Second, Boot(true)),
    EndEvent(First, Handshake(1)), EndEvent(Second, Handshake(0)),
    EndEvent(First, Action.Enqueue(Msg, 0)), EndEvent(First, RunTask(true, true, true)),
    EndEvent(Second, Action.Enqueue(Msg, 1)), EndEvent(Second, RunTask(true, true, true))]

  /** A page that has just agreed on its session key. */
  function Agreed(own: nat): Endpoint {
    Endpoint(None, Some(FreshPage(own).(active := Some(Active(Key(0, 1, false), 0, 0, 0, Strict, None)))))
  }

  lemma RunAsOn(roles: Roles, events: seq<EndEvent>, ev: EndEvent)
    ensures RunAs(roles, events + [ev]) == StepAs(roles, RunAs(roles, events), ev)
  {
    assert (events + [ev])[..|events|] == events;
    hide StepAs;
  }

  lemma BothAgree(roles: Roles)
    ensures RunAs(roles, BothSend[..4]) == Ends(Agreed(0), Agreed(1), [], 2)
  {
    hide StepAs;
    var boot1 := EndEvent(First, Boot(true));
    var boot2 := EndEvent(Second, Boot(true));
    RunAsOn(roles, [], boot1);
    RunAsOn(roles, [boot1], boot2);
    RunAsOn(roles, [boot1, boot2], EndEvent(First, Handshake(1)));
    RunAsOn(roles, [boot1, boot2, EndEvent(First, Handshake(1))], EndEvent(Second, Handshake(0)));
    assert [] + [boot1] == [boot1] && [boot1] + [boot2] == [boot1, boot2];
    assert [boot1, boot2] + [EndEvent(First, Handshake(1))] == [boot1, boot2, EndEvent(First, Handshake(1))];
    assert BothSend[..4] == [boot1, boot2, EndEvent(First, Handshake(1))] + [EndEvent(Second, Handshake(0))];
    BootsAndAgrees(roles);
  }

  lemma BootsAndAgrees(roles: Roles)
    ensures var booted := StepAs(roles, StepAs(roles, Apart, EndEvent(First, Boot(true))), EndEvent(Second, Boot(true)));
      StepAs(roles, StepAs(roles, booted, EndEvent(First, Handshake(1))), EndEvent(Second, Handshake(0)))
      == Ends(Agreed(0), Agreed(1), [], 2)
  {
  }

  function Texted(roles: Roles, w: Ends, end: End, data: nat): Ends {
    StepAs(roles, StepAs(roles, w, EndEvent(end, Action.Enqueue(Msg, data))), EndEvent(end, RunTask(true, true, true)))
  }

  lemma TextedLogs(roles: Roles, w: Ends, end: End, data: nat)
    requires Live(w.At(end)) && !w.At(end).page.value.terminated && w.At(end).page.value.outbox == []
    requires w.At(end).page.value.active.value.committed < MAX_COUNTER
    ensures var a := w.At(end).page.value.active.value;
            var w' := Texted(roles, w, end, data);
            && w'.log == w.log + [Frame(a.key, roles.Of(end), a.committed + 1, Msg, App(data))]
            && (end == First ==> w'.second == w.second)
  {
    SendsNext(roles.Of(end), w.At(end), data, w.log, w.nextPair);
    hide Act;
  }

  lemma BothTakeOne(roles: Roles)
    ensures RunAs(roles, BothSend).log ==
      [Frame(Key(0, 1, false), roles.first, 1, Msg, App(0)), Frame(Key(0, 1, false), roles.second, 1, Msg, App(1))]
  {
    hide RunAs, StepAs, Texted;
    var agreed := Ends(Agreed(0), Agreed(1), [], 2);
    BothAgree(roles);
    TextsRun(roles, BothSend[..4], First, 0);
    TextedLogs(roles, agreed, First, 0);
    var sent := Texted(roles, agreed, First, 0);
    assert BothSend[..4] + [EndEvent(First, Action.Enqueue(Msg, 0)), EndEvent(First, RunTask(true, true, true))]
           == BothSend[..6];
    TextsRun(roles, BothSend[..6], Second, 1);
    TextedLogs(roles, sent, Second, 1);
    assert BothSend[..6] + [EndEvent(Second, Action.Enqueue(Msg, 1)), EndEvent(Second, RunTask(true, true, true))]
           == BothSend;
  }

  lemma TextsRun(roles: Roles, events: seq<EndEvent>, end: End, data: nat)
    ensures
      RunAs(roles, events + [EndEvent(end, Action.Enqueue(Msg, data)), EndEvent(end, RunTask(true, true, true))])
      == Texted(roles, RunAs(roles, events), end, data)
  {
    hide RunAs, StepAs;
    var queue, send := EndEvent(end, Action.Enqueue(Msg, data)), EndEvent(end, RunTask(true, true, true));
    RunAsOn(roles, events, queue);
    RunAsOn(roles, events + [queue], send);
    assert events + [queue] + [send] == events + [queue, send];
  }

  /** Nonces are used once in every run if and only if the relay gave the two ends different roles. */
  lemma NoncesUniqueExactlyForTwoRoles(roles: Roles)
    ensures (forall events :: NoncesUnique(RunAs(roles, events).log)) <==> roles.first != roles.second
  {
    if roles.first != roles.second {
      forall events: seq<EndEvent>
        ensures NoncesUnique(RunAs(roles, events).log)
      {
        RunAsRun(roles, events);
        NonceNeverReused(AsEvents(roles, events));
        hide RunAs, Run, NoncesUnique;
      }
    } else {
      BothTakeOne(roles);
      hide RunAs;
      var log := RunAs(roles, BothSend).log;
      assert !SealedApart(log[0], log[1]);
      assert !NoncesUnique(log);
    }
  }
}
