/**
 Who is let in: exactly when a HELLO is acknowledged and with which room as the result, and that a socket gets one
 handshake frame through in its life.
 */
module RelayAdmission {
  import opened Bytes
  import opened Nonce
  import opened RelayRooms
  import opened RelaySafety
  import opened Wire

  /** Message `s` was sent by the step from `w` to `w'`. */
  ghost predicate News(w: Relay, w': Relay, s: Sent) {
    exists i :: |w.sends| <= i < |w'.sends| && w'.sends[i] == s
  }

  /** The step acknowledged the sender of the HELLO in slot `role`. */
  ghost predicate Acknowledged(w: Relay, ev: Event, role: Role)
    requires ev.Hello?
  {
    News(w, Step(w, ev), Sent(ev.ws, Ack(role)))
  }

  predicate Vacant(w: Relay, id: RoomId) {
    id in w.rooms && (w.rooms[id].initiator.None? || w.rooms[id].joiner.None?)
  }

  /** What each intent asks of the room: not there, waiting for its first joiner, or missing an occupant. */
  predicate OpenTo(w: Relay, id: RoomId, intent: Intent) {
    match intent
    case Create => id !in w.rooms
    case Join => id in w.rooms && w.rooms[id].state == Waiting
    case Resume => Vacant(w, id)
  }

  /** The room once `ws` has taken slot `role` of it: alone when it created it, else with the occupant it found. */
  ghost predicate Seated(w: Relay, w': Relay, ev: Event, role: Role)
    requires ev.Hello?
  {
    && ev.id in w'.rooms && w'.rooms[ev.id].Slot(role) == Some(ev.ws)
    && if ev.intent == Create then w'.rooms[ev.id].Slot(role.Peer()) == None && w'.rooms[ev.id].state == Waiting
       else
         && ev.id in w.rooms && w.rooms[ev.id].Slot(role) == None
         && w'.rooms[ev.id].Slot(role.Peer()) == w.rooms[ev.id].Slot(role.Peer()) && w'.rooms[ev.id].state == Paired
         && w.rooms[ev.id].Slot(role.Peer()).Some?
         && News(w, w', Sent(w.rooms[ev.id].Slot(role.Peer()).value, PeerJoined))
  }

  /** The conditions of admission that do not concern the room. */
  predicate Presentable(w: Relay, ev: Event)
    requires ev.Hello?
  {
    ev.ws in w.conns && w.conns[ev.ws].state == PendingHello && ev.versionOk && !ev.limited
  }

  lemma Unpresentable(w: Relay, ev: Event, role: Role)
    requires ev.Hello? && !Presentable(w, ev)
    ensures !Acknowledged(w, ev, role)
  {
  }

  lemma CreateAdmits(w: Relay, ev: Event, role: Role)
    requires ev.Hello? && Presentable(w, ev) && ev.intent == Create
    ensures Acknowledged(w, ev, role) <==> role == Initiator && ev.id !in w.rooms && !ev.ackDropped
    ensures Acknowledged(w, ev, role) ==> Seated(w, Step(w, ev), ev, role)
  {
    var w' := Step(w, ev);
    if ev.id !in w.rooms && !ev.ackDropped {
      assert w'.sends == w.sends + [Sent(ev.ws, Ack(Initiator))];
      assert w'.sends[|w.sends|] == Sent(ev.ws, Ack(Initiator));
    }
  }

  lemma Unwelcome(w: Relay, ev: Event, role: Role)
    requires ev.Hello? && Presentable(w, ev) && ev.intent != Create
    requires ev.id in w.rooms ==> RoomOk(ev.id, w.rooms[ev.id], w.conns, w.nextSerial)
    requires !OpenTo(w, ev.id, ev.intent)
    ensures !Acknowledged(w, ev, role)
  {
  }

  lemma EnterAdmits(w: Relay, ev: Event, role: Role)
    requires ev.Hello? && Presentable(w, ev) && ev.intent != Create && OpenTo(w, ev.id, ev.intent)
    requires RoomOk(ev.id, w.rooms[ev.id], w.conns, w.nextSerial) && ConnOk(ev.ws, w.conns[ev.ws], w.grants)
    ensures Acknowledged(w, ev, role) <==> !ev.ackDropped && w.rooms[ev.id].Slot(role) == None
    ensures w.rooms[ev.id].Slot(role) == None && !ev.ackDropped && !ev.joinedDropped ==> Seated(w, Step(w, ev), ev, role)
    ensures ev.intent == Join && w.rooms[ev.id].Slot(role) == None ==> role == Joiner
    ensures w.rooms[ev.id].Slot(Initiator) == None || w.rooms[ev.id].Slot(Joiner) == None
  {
    var w' := Step(w, ev);
    var room := w.rooms[ev.id];
    assert role == Initiator || role == Joiner;
    var taken := SlotFor(room);
    var other := Remaining(room);
    assert other == room.Slot(taken.Peer()) && other.Some? && other != Some(ev.ws);
    if !ev.ackDropped {
      assert w'.sends[|w.sends|] == Sent(ev.ws, Ack(taken));
      if !ev.joinedDropped {
        assert w'.sends[|w.sends| + 1] == Sent(other.value, PeerJoined);
      }
    }
  }

  /**
   A HELLO is acknowledged if and only if it is the socket's first to be let in, of this version, within the rate limit,
   the room is open to its intent and the socket takes the message. A creator is the initiator and a first joiner the
   joiner, and with the ACK the slot is theirs, unless the other occupant does not take the news.
   */
  lemma AdmittedExactly(events: seq<Event>, ev: Event)
    requires ev.Hello?
    ensures var w := Run(events);
      && ((exists role: Role :: Acknowledged(w, ev, role)) <==>
            && ev.ws in w.conns && w.conns[ev.ws].state == PendingHello && ev.versionOk && !ev.limited
            && OpenTo(w, ev.id, ev.intent) && !ev.ackDropped)
      && forall role: Role | Acknowledged(w, ev, role) ::
           && (ev.intent == Create ==> role == Initiator) && (ev.intent == Join ==> role == Joiner)
           && (ev.intent == Create || !ev.joinedDropped ==> Seated(w, Step(w, ev), ev, role))
  {
    RunKept(Empty, events);
    var w := Run(events);
    hide Run, Step;
    assert ev.id in w.rooms ==> RoomOk(ev.id, w.rooms[ev.id], w.conns, w.nextSerial);
    assert ev.ws in w.conns ==> ConnOk(ev.ws, w.conns[ev.ws], w.grants);
    assert Presentable(w, ev) && ev.intent != Create && OpenTo(w, ev.id, ev.intent) ==> ev.id in w.rooms;
    hide Inv, RoomOk, ConnOk, News, Seated;
    forall role: Role
      ensures Acknowledged(w, ev, role) <==>
        && Presentable(w, ev) && OpenTo(w, ev.id, ev.intent) && !ev.ackDropped
        && if ev.intent == Create then role == Initiator else w.rooms[ev.id].Slot(role) == None
      ensures Acknowledged(w, ev, role) ==>
           && (ev.intent == Create ==> role == Initiator) && (ev.intent == Join ==> role == Joiner)
           && (ev.intent == Create || !ev.joinedDropped ==> Seated(w, Step(w, ev), ev, role))
    {
      if !Presentable(w, ev) {
        Unpresentable(w, ev, role);
      } else if ev.intent == Create {
        CreateAdmits(w, ev, role);
      } else if OpenTo(w, ev.id, ev.intent) {
        EnterAdmits(w, ev, role);
      } else {
        Unwelcome(w, ev, role);
      }
    }
    if Presentable(w, ev) && OpenTo(w, ev.id, ev.intent) && !ev.ackDropped {
      if ev.intent != Create {
        EnterAdmits(w, ev, Initiator);
      }
      assert Acknowledged(w, ev, Initiator) || Acknowledged(w, ev, Joiner);
    }
  }

  /** A HELLO that was entitled to a room but whose ACK the socket does not take leaves no room behind. */
  lemma AnUntakenAckLeavesNoRoom(events: seq<Event>, ev: Event)
    requires ev.Hello? && Presentable(Run(events), ev) && OpenTo(Run(events), ev.id, ev.intent) && ev.ackDropped
    ensures ev.id !in Step(Run(events), ev).rooms
    ensures forall id | id in Run(events).rooms && id != ev.id ::
      id in Step(Run(events), ev).rooms && Step(Run(events), ev).rooms[id] == Run(events).rooms[id]
    ensures Step(Run(events), ev).sends == Run(events).sends
  {
    RunKept(Empty, events);
    hide Run;
    var w := Run(events);
    if ev.id in w.rooms {
      assert RoomOk(ev.id, w.rooms[ev.id], w.conns, w.nextSerial);
    }
  }

  // ---- handshakes -------------------------------------------------------------------------------------------

  /** The step relayed a handshake frame of `ws`. */
  ghost predicate RelaysHandshake(w: Relay, ev: Event, ws: Socket) {
    && ev.Forward? && ev.ws == ws && ev.kind == HandshakeFrame
    && exists peer :: News(w, Step(w, ev), Sent(peer, Frame(ev.bytes)))
  }

  /** The socket has had its handshake frame relayed, or is closed. */
  predicate UsedUp(w: Relay, ws: Socket) {
    if ws in w.conns then w.conns[ws].handshakeForwards >= MAX_HANDSHAKE_FORWARDS else ws in w.gone
  }

  lemma {:induction false} SweepLeavesConns(w: Relay, order: seq<RoomId>, now: int, graceMs: int)
    ensures SweepRooms(w, order, now, graceMs).conns == w.conns && SweepRooms(w, order, now, graceMs).gone == w.gone
  {
    if order != [] {
      SweepLeavesConns(w, order[..|order| - 1], now, graceMs);
    }
  }

  lemma HelloStays(w: Relay, ev: Event, ws: Socket)
    requires ev.Hello? && UsedUp(w, ws)
    ensures UsedUp(Step(w, ev), ws)
  {
    hide AddPeer;
  }

  lemma ForwardStays(w: Relay, ev: Event, ws: Socket)
    requires ev.Forward? && UsedUp(w, ws)
    ensures UsedUp(Step(w, ev), ws) && !RelaysHandshake(w, ev, ws)
  {
    hide GetPeer;
  }

  lemma UsedUpStays(w: Relay, ev: Event, ws: Socket)
    requires UsedUp(w, ws)
    ensures UsedUp(Step(w, ev), ws) && !RelaysHandshake(w, ev, ws)
  {
    hide SweepRooms, HandleHello, HandleForward;
    match ev
    case Sweep(order, now, graceMs) => SweepLeavesConns(w, order, now, graceMs);
    case Hello(_, _, _, _, _, _, _, _) => HelloStays(w, ev, ws);
    case Forward(_, _, _, _, _, _) => ForwardStays(w, ev, ws);
    case _ =>
  }

  lemma RelayingUsesUp(w: Relay, ev: Event, ws: Socket)
    requires RelaysHandshake(w, ev, ws)
    ensures UsedUp(Step(w, ev), ws)
  {
  }

  /** Of all the handshake frames a socket sends in its life at most one is relayed. */
  lemma {:induction false} OneHandshakeForLife(events: seq<Event>, i: nat, j: nat, ws: Socket)
    requires i < j < |events|
    requires RelaysHandshake(Run(events[..i]), events[i], ws)
    ensures UsedUp(Run(events[..j]), ws) && !RelaysHandshake(Run(events[..j]), events[j], ws)
    decreases j
  {
    hide Step, UsedUp, RelaysHandshake;
    var mid := events[..j];
    assert mid[..j - 1] == events[..j - 1] && mid[j - 1] == events[j - 1];
    assert Run(mid) == Step(Run(events[..j - 1]), events[j - 1]);
    if i == j - 1 {
      RelayingUsesUp(Run(events[..i]), events[i], ws);
    } else {
      OneHandshakeForLife(events, i, j - 1, ws);
      UsedUpStays(Run(events[..j - 1]), events[j - 1], ws);
    }
    UsedUpStays(Run(events[..j]), events[j], ws);
  }
}
