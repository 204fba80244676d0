/**
 The handlers when the server runtime runs a socket's close handler inside the call that closes it, instead of later.
 Every step then ends in the state in which the step of `RelayRooms`, followed by the close events it caused, ends; only
 a peer that is about to be closed itself may be told first that its peer has disconnected.  So a run with synchronous
 closes is a run of `RelayRooms`, and its promises hold of it.
 */
module RelaySyncClose {
  import opened Bytes
  import opened Nonce
  import opened RelayRooms
  import opened RelaySafety
  import opened Wire

  // ---- the handlers with the close handler inside -----------------------------------------------------------

  /** `ws.close()`: the close handler runs now; a socket that is closed already is left alone. */
  function Closing(w: Relay, ws: Socket, now: int): Relay {
    if ws in w.conns then HandleClose(w, ws, now) else w
  }

  function Deleted(w: Relay, id: RoomId): Relay {
    w.(rooms := w.rooms - {id})
  }

  /** `sendErrorAndClose`. */
  function Refuse(w: Relay, ws: Socket, code: ErrorCode, now: int): Relay {
    Closing(Say(w, ws, Error(code)), ws, now)
  }

  function BothClosed(w: Relay, ws: Socket, peer: Socket, id: RoomId, now: int): Relay {
    Deleted(Closing(Closing(w, ws, now), peer, now), id)
  }

  function CreateNow(w: Relay, ws: Socket, id: RoomId, limited: bool, now: int, ackDropped: bool): Relay
    requires ws in w.conns
  {
    if limited then Refuse(w, ws, RateLimited, now)
    else if id in w.rooms then Refuse(w, ws, RoomAlreadyExists, now)
    else HandleCreate(w, ws, id, false, now, ackDropped)
  }

  function EnterNow(w: Relay, ws: Socket, id: RoomId, intent: Intent, now: int, ackDropped: bool, joinedDropped: bool)
    : Relay
    requires ws in w.conns && id in w.rooms && HasFreeSlot(w.rooms[id])
  {
    var remaining := Remaining(w.rooms[id]);
    var role := SlotFor(w.rooms[id]);
    var seated := TakeSlot(w, ws, id, intent, now);
    if ackDropped then
      var removed := seated.(rooms := RemovePeer(seated.rooms, id, ws, now));
      if remaining.Some? && remaining != Some(ws) then BothClosed(removed, ws, remaining.value, id, now)
      else Deleted(removed, id)
    else
      var acked := Say(seated, ws, Ack(role));
      if remaining.None? || remaining == Some(ws) then acked
      else if joinedDropped then BothClosed(acked, ws, remaining.value, id, now)
      else Say(acked, remaining.value, PeerJoined)
  }

  function JoinNow(w: Relay, ws: Socket, id: RoomId, intent: Intent, limited: bool, now: int, ackDropped: bool,
                   joinedDropped: bool): Relay
    requires ws in w.conns
  {
    if limited then Refuse(w, ws, RateLimited, now)
    else if id !in w.rooms then Refuse(w, ws, RoomNotFound, now)
    else if w.rooms[id].state == HalfOpen && intent != Resume then Refuse(w, ws, RoomFull, now)
    else if !HasFreeSlot(w.rooms[id]) then Refuse(w, ws, RoomFull, now)
    else EnterNow(w, ws, id, intent, now, ackDropped, joinedDropped)
  }

  function HelloNow(w: Relay, ws: Socket, id: RoomId, intent: Intent, versionOk: bool, limited: bool, now: int,
                    ackDropped: bool, joinedDropped: bool): Relay
    requires ws in w.conns
  {
    if w.conns[ws].state != PendingHello then Refuse(w, ws, BadState, now)
    else if !versionOk then Refuse(w, ws, UnsupportedVersion, now)
    else if intent == Create then CreateNow(w, ws, id, limited, now, ackDropped)
    else JoinNow(w, ws, id, intent, limited, now, ackDropped, joinedDropped)
  }

  function ForwardNow(w: Relay, ws: Socket, bytes: seq<Byte>, kind: FrameType, tokenOk: bool, overflow: bool,
                      dropped: bool, now: int): Relay
    requires ws in w.conns
  {
    var data := w.conns[ws];
    if data.state != PairedUp then Refuse(w, ws, BadState, now)
    else if |bytes| > MAX_WIRE_BYTES then Refuse(w, ws, MessageTooLarge, now)
    else if kind == HandshakeFrame && |bytes| != HANDSHAKE_FRAME_LENGTH then Refuse(w, ws, InvalidPayload, now)
    else if kind == RelayFrame && !tokenOk then Refuse(w, ws, RateLimited, now)
    else if data.roomId.None? || data.roomId.value !in w.rooms then Refuse(w, ws, RoomNotFound, now)
    else
      var id := data.roomId.value;
      var room := w.rooms[id];
      var peer := GetPeer(room, ws);
      if peer.None? then
        if room.state == HalfOpen then
          if kind == HandshakeFrame && !tokenOk then Refuse(w, ws, RateLimited, now) else w
        else Refuse(w, ws, Internal, now)
      else if kind == HandshakeFrame && data.handshakeForwards >= MAX_HANDSHAKE_FORWARDS then
        Refuse(w, ws, BadState, now)
      else
        var w' := if kind == HandshakeFrame
                  then w.(conns := w.conns[ws := data.(handshakeForwards := data.handshakeForwards + 1)]) else w;
        if overflow then BothClosed(w', ws, peer.value, id, now)
        else if dropped then Deleted(Refuse(Refuse(w', ws, Internal, now), peer.value, Internal, now), id)
        else Say(w', peer.value, Frame(bytes))
  }

  function SweepOneNow(w: Relay, id: RoomId, now: int, graceMs: int): Relay {
    if id !in w.rooms || !Expired(w.rooms[id], now, graceMs) then w
    else
      var room := w.rooms[id];
      var who := if room.state == HalfOpen then Remaining(room) else room.initiator;
      if who.None? then Deleted(w, id)
      else
        var told := if room.state == HalfOpen then Say(w, who.value, PeerLeft) else w;
        Deleted(Closing(told, who.value, now), id)
  }

  function SweepNow(w: Relay, order: seq<RoomId>, now: int, graceMs: int): Relay {
    if order == [] then w
    else SweepOneNow(SweepNow(w, order[..|order| - 1], now, graceMs), order[|order| - 1], now, graceMs)
  }

  function StepNow(w: Relay, ev: Event, now: int): Relay {
    match ev
    case Hello(ws, id, intent, versionOk, limited, at, ackDropped, joinedDropped) =>
      if ws !in w.conns then w
      else HelloNow(w, ws, id, intent, versionOk, limited, at, ackDropped, joinedDropped)
    case Forward(ws, bytes, kind, tokenOk, overflow, dropped) =>
      if ws !in w.conns then w else ForwardNow(w, ws, bytes, kind, tokenOk, overflow, dropped, now)
    case Sweep(order, at, graceMs) => SweepNow(w, order, at, graceMs)
    case Open(_) => Step(w, ev)
    case Close(_, _) => Step(w, ev)
  }

  /** An event and the time at which it is handled. */
  datatype Timed = Timed(ev: Event, now: int)

  function RunNow(events: seq<Timed>): Relay {
    if events == [] then Empty
    else StepNow(RunNow(events[..|events| - 1]), events[|events| - 1].ev, events[|events| - 1].now)
  }

  // ---- but for the news of disconnections -------------------------------------------------------------------

  function Plain(sends: seq<Sent>): seq<Sent> {
    if sends == [] then []
    else
      Plain(sends[..|sends| - 1])
      + if sends[|sends| - 1].message == PeerDisconnected then [] else [sends[|sends| - 1]]
  }

  /** The relay without the PEER_DISCONNECTED messages it has sent. */
  function Core(w: Relay): Relay {
    w.(sends := Plain(w.sends))
  }

  lemma PlainSay(w: Relay, to: Socket, message: Message)
    ensures Plain(Say(w, to, message).sends)
            == if message == PeerDisconnected then Plain(w.sends) else Plain(w.sends) + [Sent(to, message)]
  {
    assert (w.sends + [Sent(to, message)])[..|w.sends|] == w.sends;
  }

  lemma SaySame(a: Relay, b: Relay, to: Socket, message: Message)
    requires Core(a) == Core(b)
    ensures Core(Say(a, to, message)) == Core(Say(b, to, message))
  {
    PlainSay(a, to, message);
    PlainSay(b, to, message);
    hide Plain;
  }

  /** Whom a close tells, and what is left of the rooms. */
  lemma ClosingIs(w: Relay, ws: Socket, now: int)
    requires ws in w.conns
    ensures Core(Closing(w, ws, now)) ==
      var id := w.conns[ws].roomId;
      Core(w).(conns := w.conns - {ws}, gone := w.gone + {ws},
               rooms := if id.Some? && id.value in w.rooms then RemovePeer(w.rooms, id.value, ws, now) else w.rooms)
  {
    hide Plain, RemovePeer, Remaining;
    var id := w.conns[ws].roomId;
    if id.Some? && id.value in w.rooms {
      var rooms := RemovePeer(w.rooms, id.value, ws, now);
      var w' := w.(conns := w.conns - {ws}, gone := w.gone + {ws}, rooms := rooms);
      if id.value in rooms && Remaining(rooms[id.value]).Some? {
        PlainSay(w', Remaining(rooms[id.value]).value, PeerDisconnected);
      }
    }
  }

  lemma ClosingSame(a: Relay, b: Relay, ws: Socket, now: int)
    requires Core(a) == Core(b)
    ensures Core(Closing(a, ws, now)) == Core(Closing(b, ws, now))
  {
    hide Plain, HandleClose, RemovePeer;
    if ws in a.conns {
      ClosingIs(a, ws, now);
      ClosingIs(b, ws, now);
    }
  }

  /** It makes no difference whether a room is deleted before or after one of its sockets is closed. */
  lemma DeleteCommutes(w: Relay, ws: Socket, id: RoomId, now: int)
    ensures Core(Deleted(Closing(w, ws, now), id)) == Core(Closing(Deleted(w, id), ws, now))
  {
    hide Plain, HandleClose;
    if ws in w.conns {
      ClosingIs(w, ws, now);
      ClosingIs(Deleted(w, id), ws, now);
      RemoveThenDelete(w.rooms, w.conns[ws].roomId, ws, id, now);
      hide RemovePeer;
    }
  }

  lemma RemoveThenDelete(rooms: map<RoomId, Room>, own: Option<RoomId>, ws: Socket, id: RoomId, now: int)
    ensures own.Some? && own.value in rooms && own.value != id ==>
              RemovePeer(rooms, own.value, ws, now) - {id} == RemovePeer(rooms - {id}, own.value, ws, now)
    ensures own.Some? && own.value in rooms && own.value == id ==> RemovePeer(rooms, id, ws, now) - {id} == rooms - {id}
  {
    hide Vacated;
  }

  /** Nor whether another message is sent before or after. */
  lemma SayCommutes(w: Relay, ws: Socket, to: Socket, message: Message, now: int)
    ensures Core(Say(Closing(w, ws, now), to, message)) == Core(Closing(Say(w, to, message), ws, now))
  {
    hide Plain, HandleClose, RemovePeer;
    PlainSay(w, to, message);
    PlainSay(Closing(w, ws, now), to, message);
    if ws in w.conns {
      ClosingIs(w, ws, now);
      ClosingIs(Say(w, to, message), ws, now);
    }
  }

  // ---- a step and the closes it caused ----------------------------------------------------------------------

  /** The sockets are closed one after the other. */
  function CloseAll(w: Relay, closed: seq<Socket>, now: int): Relay {
    if closed == [] then w
    else Closing(CloseAll(w, closed[..|closed| - 1], now), closed[|closed| - 1], now)
  }

  lemma CloseOne(w: Relay, ws: Socket, now: int)
    ensures CloseAll(w, [ws], now) == Closing(w, ws, now)
  {
    assert [ws][..0] == [];
    hide Closing;
  }

  lemma {:induction false} CloseMore(w: Relay, closed: seq<Socket>, more: seq<Socket>, now: int)
    ensures CloseAll(w, closed + more, now) == CloseAll(CloseAll(w, closed, now), more, now)
    decreases |more|
  {
    hide Closing;
    if more == [] {
      assert closed + more == closed;
    } else {
      CloseMore(w, closed, more[..|more| - 1], now);
      assert (closed + more)[..|closed + more| - 1] == closed + more[..|more| - 1];
    }
  }

  lemma CloseTwo(w: Relay, a: Socket, b: Socket, now: int)
    ensures CloseAll(w, [a, b], now) == Closing(Closing(w, a, now), b, now)
  {
    hide Closing;
    CloseOne(w, a, now);
    CloseMore(w, [a], [b], now);
    CloseOne(Closing(w, a, now), b, now);
    assert [a] + [b] == [a, b];
  }

  lemma {:induction false} CloseAllSame(a: Relay, b: Relay, closed: seq<Socket>, now: int)
    requires Core(a) == Core(b)
    ensures Core(CloseAll(a, closed, now)) == Core(CloseAll(b, closed, now))
  {
    hide Core, Closing;
    if closed != [] {
      var n := |closed| - 1;
      CloseAllSame(a, b, closed[..n], now);
      ClosingSame(CloseAll(a, closed[..n], now), CloseAll(b, closed[..n], now), closed[n], now);
    }
  }

  lemma DeletedSame(a: Relay, b: Relay, id: RoomId)
    requires Core(a) == Core(b)
    ensures Core(Deleted(a, id)) == Core(Deleted(b, id))
  {
    hide Plain;
  }

  lemma BothClosedSame(w: Relay, ws: Socket, peer: Socket, id: RoomId, now: int)
    ensures Core(BothClosed(w, ws, peer, id, now)) == Core(CloseAll(Deleted(w, id), [ws, peer], now))
  {
    hide Core, Closing, Deleted;
    DeleteCommutes(Closing(w, ws, now), peer, id, now);
    DeleteCommutes(w, ws, id, now);
    ClosingSame(Deleted(Closing(w, ws, now), id), Closing(Deleted(w, id), ws, now), peer, now);
    CloseTwo(Deleted(w, id), ws, peer, now);
  }

  lemma BothRefusedSame(w: Relay, ws: Socket, peer: Socket, id: RoomId, now: int)
    ensures Core(Deleted(Refuse(Refuse(w, ws, Internal, now), peer, Internal, now), id))
            == Core(CloseAll(Deleted(Say(Say(w, ws, Error(Internal)), peer, Error(Internal)), id), [ws, peer], now))
  {
    hide Core, Closing, Deleted, Say;
    var said := Say(w, ws, Error(Internal));
    SayCommutes(said, ws, peer, Error(Internal), now);
    var a, b := Say(Closing(said, ws, now), peer, Error(Internal)), Closing(Say(said, peer, Error(Internal)), ws, now);
    ClosingSame(a, b, peer, now);
    DeletedSame(Closing(a, peer, now), Closing(b, peer, now), id);
    BothClosedSame(Say(said, peer, Error(Internal)), ws, peer, id, now);
  }

  lemma RefuseIs(w: Relay, ws: Socket, code: ErrorCode, now: int)
    ensures Refuse(w, ws, code, now) == CloseAll(Say(w, ws, Error(code)), [ws], now)
  {
    CloseOne(Say(w, ws, Error(code)), ws, now);
    hide Closing;
  }

  /** `closed` are the sockets whose close events follow `w'`, so that in all it is `w`. */
  ghost predicate ThenCloses(w: Relay, w': Relay, closed: seq<Socket>, now: int) {
    Core(w) == Core(CloseAll(w', closed, now))
  }

  lemma ClosesNone(w: Relay, now: int)
    ensures ThenCloses(w, w, [], now)
  {
  }

  lemma ClosesRefused(w: Relay, ws: Socket, code: ErrorCode, now: int)
    ensures ThenCloses(Refuse(w, ws, code, now), Say(w, ws, Error(code)), [ws], now)
  {
    hide Core;
    RefuseIs(w, ws, code, now);
  }

  lemma RemovedIsDeleted(w: Relay, id: RoomId, ws: Socket, now: int)
    requires id in w.rooms
    ensures Deleted(w.(rooms := RemovePeer(w.rooms, id, ws, now)), id) == Deleted(w, id)
  {
    RemoveThenDelete(w.rooms, Some(id), ws, id, now);
    hide RemovePeer;
  }

  lemma EnterSame(w: Relay, ws: Socket, id: RoomId, intent: Intent, now: int, ackDropped: bool, joinedDropped: bool)
    returns (closed: seq<Socket>)
    requires ws in w.conns && id in w.rooms && HasFreeSlot(w.rooms[id])
    ensures ThenCloses(EnterNow(w, ws, id, intent, now, ackDropped, joinedDropped),
                       Enter(w, ws, id, intent, now, ackDropped, joinedDropped), closed, now)
  {
    hide Core, CloseAll, RemovePeer, Remaining, BothClosed, Say;
    var remaining := Remaining(w.rooms[id]);
    var seated := TakeSlot(w, ws, id, intent, now);
    closed := [];
    ClosesNone(Enter(w, ws, id, intent, now, ackDropped, joinedDropped), now);
    if ackDropped {
      var removed := seated.(rooms := RemovePeer(seated.rooms, id, ws, now));
      RemovedIsDeleted(seated, id, ws, now);
      if remaining.Some? && remaining != Some(ws) {
        BothClosedSame(removed, ws, remaining.value, id, now);
        closed := [ws, remaining.value];
      }
    } else if joinedDropped && remaining.Some? && remaining != Some(ws) {
      BothClosedSame(Say(seated, ws, Ack(SlotFor(w.rooms[id]))), ws, remaining.value, id, now);
      closed := [ws, remaining.value];
    }
  }

  lemma HelloSame(w: Relay, ws: Socket, id: RoomId, intent: Intent, versionOk: bool, limited: bool, now: int,
                  ackDropped: bool, joinedDropped: bool) returns (closed: seq<Socket>)
    requires ws in w.conns
    ensures ThenCloses(HelloNow(w, ws, id, intent, versionOk, limited, now, ackDropped, joinedDropped),
                       HandleHello(w, ws, id, intent, versionOk, limited, now, ackDropped, joinedDropped), closed, now)
  {
    hide Core, CloseAll, ThenCloses, EnterNow, Enter, Refuse, Say;
    closed := [ws];
    if w.conns[ws].state != PendingHello {
      ClosesRefused(w, ws, BadState, now);
    } else if !versionOk {
      ClosesRefused(w, ws, UnsupportedVersion, now);
    } else if limited {
      ClosesRefused(w, ws, RateLimited, now);
    } else if intent == Create {
      if id in w.rooms {
        ClosesRefused(w, ws, RoomAlreadyExists, now);
      } else {
        closed := [];
        ClosesNone(HandleCreate(w, ws, id, false, now, ackDropped), now);
      }
    } else if id !in w.rooms {
      ClosesRefused(w, ws, RoomNotFound, now);
    } else if (w.rooms[id].state == HalfOpen && intent != Resume) || !HasFreeSlot(w.rooms[id]) {
      ClosesRefused(w, ws, RoomFull, now);
    } else {
      closed := EnterSame(w, ws, id, intent, now, ackDropped, joinedDropped);
    }
  }

  lemma ForwardSame(w: Relay, ws: Socket, bytes: seq<Byte>, kind: FrameType, tokenOk: bool, overflow: bool,
                    dropped: bool, now: int) returns (closed: seq<Socket>)
    requires ws in w.conns
    ensures ThenCloses(ForwardNow(w, ws, bytes, kind, tokenOk, overflow, dropped, now),
                       HandleForward(w, ws, bytes, kind, tokenOk, overflow, dropped), closed, now)
  {
    hide Core, CloseAll, BothClosed, Refuse, Say, GetPeer;
    closed := [ws];
    forall code: ErrorCode ensures ThenCloses(Refuse(w, ws, code, now), Say(w, ws, Error(code)), [ws], now) {
      ClosesRefused(w, ws, code, now);
    }
    ClosesNone(HandleForward(w, ws, bytes, kind, tokenOk, overflow, dropped), now);
    var sent := ForwardNow(w, ws, bytes, kind, tokenOk, overflow, dropped, now);
    var data := w.conns[ws];
    if sent == HandleForward(w, ws, bytes, kind, tokenOk, overflow, dropped) {
      closed := [];
    } else if Forwards(w, ws, bytes, kind, tokenOk) {
      var id := data.roomId.value;
      var peer := GetPeer(w.rooms[id], ws).value;
      var w' := if kind == HandshakeFrame
                then w.(conns := w.conns[ws := data.(handshakeForwards := data.handshakeForwards + 1)]) else w;
      closed := [ws, peer];
      BothClosedSame(w', ws, peer, id, now);
      BothRefusedSame(w', ws, peer, id, now);
      SaysKeepRooms(w', ws, peer);
    }
  }

  lemma SaysKeepRooms(w: Relay, ws: Socket, peer: Socket)
    ensures Say(Say(w, ws, Error(Internal)), peer, Error(Internal)).rooms == w.rooms
  {
  }

  /** The frame passes every check and has a peer to go to. */
  predicate Forwards(w: Relay, ws: Socket, bytes: seq<Byte>, kind: FrameType, tokenOk: bool)
    requires ws in w.conns
  {
    var data := w.conns[ws];
    && data.state == PairedUp && |bytes| <= MAX_WIRE_BYTES
    && (kind == HandshakeFrame ==> |bytes| == HANDSHAKE_FRAME_LENGTH)
    && (kind == RelayFrame ==> tokenOk)
    && data.roomId.Some? && data.roomId.value in w.rooms
    && GetPeer(w.rooms[data.roomId.value], ws).Some?
    && (kind == HandshakeFrame ==> data.handshakeForwards < MAX_HANDSHAKE_FORWARDS)
  }

  // ---- the sweep --------------------------------------------------------------------------------------------

  /** The rooms these sockets named are gone. */
  predicate Roomless(w: Relay, closed: seq<Socket>) {
    forall i | 0 <= i < |closed| && closed[i] in w.conns ::
      w.conns[closed[i]].roomId.None? || w.conns[closed[i]].roomId.value !in w.rooms
  }

  lemma RoomlessClosing(w: Relay, ws: Socket, now: int)
    requires Roomless(w, [ws])
    ensures Closing(w, ws, now) == w.(conns := w.conns - {ws}, gone := w.gone + if ws in w.conns then {ws} else {})
  {
    assert [ws][0] == ws;
  }

  lemma {:induction false} RoomlessCloses(w: Relay, closed: seq<Socket>, now: int)
    requires Roomless(w, closed)
    ensures var w' := CloseAll(w, closed, now);
      w'.rooms == w.rooms && w'.sends == w.sends && w'.nextSerial == w.nextSerial && w'.grants == w.grants
      && w'.conns.Keys <= w.conns.Keys && forall ws | ws in w'.conns :: w'.conns[ws] == w.conns[ws]
  {
    if closed != [] {
      hide Closing;
      var n := |closed| - 1;
      RoomlessCloses(w, closed[..n], now);
      assert closed[n] in closed;
      RoomlessClosing(CloseAll(w, closed[..n], now), closed[n], now);
    }
  }

  lemma SweepOneIs(w: Relay, id: RoomId, now: int, graceMs: int)
    ensures var w' := SweepOne(w, id, now, graceMs);
      && w' == w.(rooms := w'.rooms, sends := w'.sends)
      && w'.rooms.Keys <= w.rooms.Keys && (forall k | k in w'.rooms :: w'.rooms[k] == w.rooms[k])
      && (forall v: Relay | v.rooms == w.rooms && v.sends == w.sends ::
            SweepOne(v, id, now, graceMs).rooms == w'.rooms && SweepOne(v, id, now, graceMs).sends == w'.sends)
  {
    hide Expired;
  }

  /** One turn of the sweep and the close of a socket whose room is gone do not see each other. */
  lemma SweepOneCloses(w: Relay, id: RoomId, ws: Socket, now: int, graceMs: int)
    requires Roomless(w, [ws])
    ensures SweepOne(Closing(w, ws, now), id, now, graceMs) == Closing(SweepOne(w, id, now, graceMs), ws, now)
  {
    RoomlessClosing(w, ws, now);
    SweepOneIs(w, id, now, graceMs);
    SweepOneIs(Closing(w, ws, now), id, now, graceMs);
    assert Roomless(SweepOne(w, id, now, graceMs), [ws]) by {
      assert [ws][0] == ws;
    }
    RoomlessClosing(SweepOne(w, id, now, graceMs), ws, now);
    hide Closing, SweepOne;
  }

  lemma {:induction false} SweepOneClosesAll(w: Relay, id: RoomId, closed: seq<Socket>, now: int, graceMs: int)
    requires Roomless(w, closed)
    ensures SweepOne(CloseAll(w, closed, now), id, now, graceMs) == CloseAll(SweepOne(w, id, now, graceMs), closed, now)
  {
    if closed != [] {
      hide SweepOne, Closing;
      var n := |closed| - 1;
      SweepOneClosesAll(w, id, closed[..n], now, graceMs);
      RoomlessCloses(w, closed[..n], now);
      assert closed[n] in closed;
      SweepOneCloses(CloseAll(w, closed[..n], now), id, closed[n], now, graceMs);
    }
  }

  /** Whom a turn of the sweep closes. */
  function SweptOut(w: Relay, id: RoomId, now: int, graceMs: int): seq<Socket> {
    if id !in w.rooms || !Expired(w.rooms[id], now, graceMs) then []
    else
      var who := if w.rooms[id].state == HalfOpen then Remaining(w.rooms[id]) else w.rooms[id].initiator;
      if who.None? then [] else [who.value]
  }

  lemma SweepOneSame(w: Relay, id: RoomId, now: int, graceMs: int)
    ensures ThenCloses(SweepOneNow(w, id, now, graceMs), SweepOne(w, id, now, graceMs), SweptOut(w, id, now, graceMs), now)
  {
    hide Core, Closing, CloseAll;
    ClosesNone(SweepOne(w, id, now, graceMs), now);
    if id in w.rooms && Expired(w.rooms[id], now, graceMs) {
      var room := w.rooms[id];
      var who := if room.state == HalfOpen then Remaining(room) else room.initiator;
      if who.Some? {
        var told := if room.state == HalfOpen then Say(w, who.value, PeerLeft) else w;
        DeleteCommutes(told, who.value, id, now);
        CloseOne(Deleted(told, id), who.value, now);
      }
    }
  }

  lemma SweepOneNowSame(a: Relay, b: Relay, id: RoomId, now: int, graceMs: int)
    requires Core(a) == Core(b)
    ensures Core(SweepOneNow(a, id, now, graceMs)) == Core(SweepOneNow(b, id, now, graceMs))
  {
    DeletedSame(a, b, id);
    if id in a.rooms && Expired(a.rooms[id], now, graceMs) {
      var room := a.rooms[id];
      var who := if room.state == HalfOpen then Remaining(room) else room.initiator;
      if who.Some? {
        SaySame(a, b, who.value, PeerLeft);
        var ta, tb := if room.state == HalfOpen then Say(a, who.value, PeerLeft) else a,
                      if room.state == HalfOpen then Say(b, who.value, PeerLeft) else b;
        ClosingSame(ta, tb, who.value, now);
        DeletedSame(Closing(ta, who.value, now), Closing(tb, who.value, now), id);
      }
    }
    hide Plain, Closing, Expired, Remaining, Deleted, Say;
  }

  lemma SweptOutRoomless(w: Relay, v: Relay, id: RoomId, now: int, graceMs: int)
    requires RoomsOk(w.rooms, w.conns, w.nextSerial)
    requires v.conns == w.conns && (id in v.rooms ==> id in w.rooms && v.rooms[id] == w.rooms[id])
    ensures Roomless(SweepOne(v, id, now, graceMs), SweptOut(v, id, now, graceMs))
  {
    if id in v.rooms && Expired(v.rooms[id], now, graceMs) {
      assert RoomOk(id, w.rooms[id], w.conns, w.nextSerial);
    }
  }

  lemma {:induction false} SweepRoomsKeep(w: Relay, order: seq<RoomId>, now: int, graceMs: int)
    ensures var v := SweepRooms(w, order, now, graceMs);
      v.conns == w.conns && forall id | id in v.rooms :: id in w.rooms && v.rooms[id] == w.rooms[id]
  {
    if order != [] {
      var n := |order| - 1;
      SweepRoomsKeep(w, order[..n], now, graceMs);
      SweepOneIs(SweepRooms(w, order[..n], now, graceMs), order[n], now, graceMs);
      hide SweepOne;
    }
  }

  lemma {:induction false} SweepSame(w: Relay, order: seq<RoomId>, now: int, graceMs: int) returns (closed: seq<Socket>)
    requires RoomsOk(w.rooms, w.conns, w.nextSerial)
    ensures ThenCloses(SweepNow(w, order, now, graceMs), SweepRooms(w, order, now, graceMs), closed, now)
    ensures Roomless(SweepRooms(w, order, now, graceMs), closed)
  {
    closed := [];
    if order == [] {
      ClosesNone(w, now);
    } else {
      hide Core, CloseAll, SweepOneNow, SweepOne, SweptOut, RoomsOk;
      var n := |order| - 1;
      var id := order[n];
      closed := SweepSame(w, order[..n], now, graceMs);
      var v := SweepRooms(w, order[..n], now, graceMs);
      var u := CloseAll(v, closed, now);
      SweepOneNowSame(SweepNow(w, order[..n], now, graceMs), u, id, now, graceMs);
      SweepOneSame(u, id, now, graceMs);
      SweepOneClosesAll(v, id, closed, now, graceMs);
      RoomlessCloses(v, closed, now);
      SweptAlike(u, v, id, now, graceMs);
      SweepRoomsKeep(w, order[..n], now, graceMs);
      SweptOutRoomless(w, v, id, now, graceMs);
      SweepOneIs(v, id, now, graceMs);
      CloseMore(SweepOne(v, id, now, graceMs), closed, SweptOut(v, id, now, graceMs), now);
      closed := closed + SweptOut(v, id, now, graceMs);
    }
  }

  lemma SweptAlike(u: Relay, v: Relay, id: RoomId, now: int, graceMs: int)
    requires u.rooms == v.rooms
    ensures SweptOut(u, id, now, graceMs) == SweptOut(v, id, now, graceMs)
  {
  }

  // ---- runs -------------------------------------------------------------------------------------------------

  /** A step with synchronous closes is the step of `RelayRooms` and then the closes it caused. */
  lemma StepIsStepThenCloses(w: Relay, ev: Event, now: int) returns (closed: seq<Socket>, at: int)
    requires RoomsOk(w.rooms, w.conns, w.nextSerial)
    ensures ThenCloses(StepNow(w, ev, now), Step(w, ev), closed, at)
  {
    hide ThenCloses, RoomsOk, HelloNow, ForwardNow, SweepNow, HandleHello, HandleForward, SweepRooms, HandleClose;
    closed, at := [], now;
    match ev
    case Hello(ws, id, intent, versionOk, limited, time, ackDropped, joinedDropped) =>
      if ws in w.conns {
        closed := HelloSame(w, ws, id, intent, versionOk, limited, time, ackDropped, joinedDropped);
        at := time;
      } else {
        ClosesNone(w, now);
      }
    case Forward(ws, bytes, kind, tokenOk, overflow, dropped) =>
      if ws in w.conns {
        closed := ForwardSame(w, ws, bytes, kind, tokenOk, overflow, dropped, now);
      } else {
        ClosesNone(w, now);
      }
    case Sweep(order, time, graceMs) =>
      closed := SweepSame(w, order, time, graceMs);
      at := time;
    case Open(_) => ClosesNone(Step(w, ev), now);
    case Close(_, _) => ClosesNone(Step(w, ev), now);
  }

  // The handlers do not read what has been sent, so relays that differ in that alone take the same steps.

  /** What a step adds to the messages sent. */
  ghost predicate Grows(a: Relay, a': Relay, b: Relay, b': Relay, added: seq<Sent>) {
    && a'.sends == a.sends + added && b'.sends == b.sends + added
    && b' == a'.(sends := b'.sends)
  }

  lemma {:induction false} PlainOn(sends: seq<Sent>, added: seq<Sent>)
    ensures Plain(sends + added) == Plain(sends) + Plain(added)
  {
    if added == [] {
      assert sends + added == sends;
    } else {
      PlainOn(sends, added[..|added| - 1]);
      assert (sends + added)[..|sends + added| - 1] == sends + added[..|added| - 1];
    }
  }

  lemma GrowsSame(a: Relay, a': Relay, b: Relay, b': Relay, added: seq<Sent>)
    requires Core(a) == Core(b) && Grows(a, a', b, b', added)
    ensures Core(a') == Core(b')
  {
    PlainOn(a.sends, added);
    PlainOn(b.sends, added);
    hide Plain;
  }

  lemma SaysOne(w: Relay, to: Socket, message: Message)
    ensures Say(w, to, message) == w.(sends := w.sends + [Sent(to, message)])
  {
  }

  /** The error a frame that is not forwarded is answered with, if any. */
  function Refusal(w: Relay, ws: Socket, bytes: seq<Byte>, kind: FrameType, tokenOk: bool): Option<ErrorCode>
    requires ws in w.conns
  {
    var data := w.conns[ws];
    if data.state != PairedUp then Some(BadState)
    else if |bytes| > MAX_WIRE_BYTES then Some(MessageTooLarge)
    else if kind == HandshakeFrame && |bytes| != HANDSHAKE_FRAME_LENGTH then Some(InvalidPayload)
    else if kind == RelayFrame && !tokenOk then Some(RateLimited)
    else if data.roomId.None? || data.roomId.value !in w.rooms then Some(RoomNotFound)
    else if GetPeer(w.rooms[data.roomId.value], ws).None? then
      if w.rooms[data.roomId.value].state != HalfOpen then Some(Internal)
      else if kind == HandshakeFrame && !tokenOk then Some(RateLimited) else None
    else Some(BadState)
  }

  lemma NotForwarded(w: Relay, ws: Socket, bytes: seq<Byte>, kind: FrameType, tokenOk: bool, overflow: bool, dropped: bool)
    requires ws in w.conns && !Forwards(w, ws, bytes, kind, tokenOk)
    ensures var code := Refusal(w, ws, bytes, kind, tokenOk);
      HandleForward(w, ws, bytes, kind, tokenOk, overflow, dropped)
      == if code.None? then w else Say(w, ws, Error(code.value))
  {
    hide GetPeer, Say;
  }

  /** What a forwarded frame sends: the frame, or nothing, or an error to both. */
  function ForwardSays(w: Relay, ws: Socket, bytes: seq<Byte>, overflow: bool, dropped: bool): seq<Sent>
    requires ws in w.conns && w.conns[ws].roomId.Some? && w.conns[ws].roomId.value in w.rooms
    requires GetPeer(w.rooms[w.conns[ws].roomId.value], ws).Some?
  {
    var peer := GetPeer(w.rooms[w.conns[ws].roomId.value], ws).value;
    if overflow then []
    else if dropped then [Sent(ws, Error(Internal))] + [Sent(peer, Error(Internal))]
    else [Sent(peer, Frame(bytes))]
  }

  lemma Forwarded(w: Relay, ws: Socket, bytes: seq<Byte>, kind: FrameType, tokenOk: bool, overflow: bool, dropped: bool)
    requires ws in w.conns && Forwards(w, ws, bytes, kind, tokenOk)
    ensures var data := w.conns[ws];
      var id := data.roomId.value;
      HandleForward(w, ws, bytes, kind, tokenOk, overflow, dropped)
      == w.(conns := if kind == HandshakeFrame
                     then w.conns[ws := data.(handshakeForwards := data.handshakeForwards + 1)] else w.conns,
            rooms := if overflow || dropped then w.rooms - {id} else w.rooms,
            sends := w.sends + ForwardSays(w, ws, bytes, overflow, dropped))
  {
    hide GetPeer;
  }

  lemma ForwardAlike(a: Relay, b: Relay, ev: Event) returns (added: seq<Sent>)
    requires Core(a) == Core(b) && ev.Forward? && ev.ws in a.conns
    ensures Grows(a, Step(a, ev), b, Step(b, ev), added)
  {
    hide Plain, GetPeer, HandleForward, Say;
    if Forwards(a, ev.ws, ev.bytes, ev.kind, ev.tokenOk) {
      added := ForwardSays(a, ev.ws, ev.bytes, ev.overflow, ev.dropped);
      Forwarded(a, ev.ws, ev.bytes, ev.kind, ev.tokenOk, ev.overflow, ev.dropped);
      Forwarded(b, ev.ws, ev.bytes, ev.kind, ev.tokenOk, ev.overflow, ev.dropped);
    } else {
      var code := Refusal(a, ev.ws, ev.bytes, ev.kind, ev.tokenOk);
      NotForwarded(a, ev.ws, ev.bytes, ev.kind, ev.tokenOk, ev.overflow, ev.dropped);
      NotForwarded(b, ev.ws, ev.bytes, ev.kind, ev.tokenOk, ev.overflow, ev.dropped);
      added := if code.None? then [] else [Sent(ev.ws, Error(code.value))];
      if code.Some? {
        SaysOne(a, ev.ws, Error(code.value));
        SaysOne(b, ev.ws, Error(code.value));
      }
    }
  }

  lemma CloseAlike(a: Relay, b: Relay, ev: Event) returns (added: seq<Sent>)
    requires Core(a) == Core(b) && ev.Close? && ev.ws in a.conns
    ensures Grows(a, Step(a, ev), b, Step(b, ev), added)
  {
    hide Plain, RemovePeer, Remaining;
    added := Step(a, ev).sends[|a.sends|..];
  }

  lemma EnterAlike(a: Relay, b: Relay, ws: Socket, id: RoomId, intent: Intent, now: int, ackDropped: bool,
                   joinedDropped: bool) returns (added: seq<Sent>)
    requires Core(a) == Core(b) && ws in a.conns && id in a.rooms && HasFreeSlot(a.rooms[id])
    ensures Grows(a, Enter(a, ws, id, intent, now, ackDropped, joinedDropped),
                  b, Enter(b, ws, id, intent, now, ackDropped, joinedDropped), added)
  {
    hide Plain, AddPeer, Remaining, SlotFor;
    added := Enter(a, ws, id, intent, now, ackDropped, joinedDropped).sends[|a.sends|..];
  }

  lemma HelloAlike(a: Relay, b: Relay, ev: Event) returns (added: seq<Sent>)
    requires Core(a) == Core(b) && ev.Hello? && ev.ws in a.conns
    ensures Grows(a, Step(a, ev), b, Step(b, ev), added)
  {
    hide Plain, Enter, HasFreeSlot;
    if a.conns[ev.ws].state == PendingHello && ev.versionOk && ev.intent != Create && !ev.limited && ev.id in a.rooms
       && !(a.rooms[ev.id].state == HalfOpen && ev.intent != Resume) && HasFreeSlot(a.rooms[ev.id]) {
      added := EnterAlike(a, b, ev.ws, ev.id, ev.intent, ev.now, ev.ackDropped, ev.joinedDropped);
    } else {
      added := Step(a, ev).sends[|a.sends|..];
    }
  }

  lemma SweepOneAlike(a: Relay, b: Relay, id: RoomId, now: int, graceMs: int)
    requires Core(a) == Core(b)
    ensures Core(SweepOne(a, id, now, graceMs)) == Core(SweepOne(b, id, now, graceMs))
  {
    hide Plain, Expired, Remaining;
    if id in a.rooms && Remaining(a.rooms[id]).Some? {
      PlainSay(Deleted(a, id), Remaining(a.rooms[id]).value, PeerLeft);
      PlainSay(Deleted(b, id), Remaining(a.rooms[id]).value, PeerLeft);
    }
  }

  lemma {:induction false} SweepAlike(a: Relay, b: Relay, order: seq<RoomId>, now: int, graceMs: int)
    requires Core(a) == Core(b)
    ensures Core(SweepRooms(a, order, now, graceMs)) == Core(SweepRooms(b, order, now, graceMs))
  {
    if order != [] {
      hide Core, SweepOne;
      var n := |order| - 1;
      SweepAlike(a, b, order[..n], now, graceMs);
      SweepOneAlike(SweepRooms(a, order[..n], now, graceMs), SweepRooms(b, order[..n], now, graceMs), order[n], now,
                    graceMs);
    }
  }

  lemma StepAlike(a: Relay, b: Relay, ev: Event)
    requires Core(a) == Core(b)
    ensures Core(Step(a, ev)) == Core(Step(b, ev))
  {
    hide Plain, Grows, HandleHello, HandleForward, HandleClose, SweepRooms;
    match ev
    case Open(_) =>
    case Hello(ws, _, _, _, _, _, _, _) =>
      if ws in a.conns {
        var added := HelloAlike(a, b, ev);
        GrowsSame(a, Step(a, ev), b, Step(b, ev), added);
      }
    case Forward(ws, _, _, _, _, _) =>
      if ws in a.conns {
        var added := ForwardAlike(a, b, ev);
        GrowsSame(a, Step(a, ev), b, Step(b, ev), added);
      }
    case Close(ws, _) =>
      if ws in a.conns {
        var added := CloseAlike(a, b, ev);
        GrowsSame(a, Step(a, ev), b, Step(b, ev), added);
      }
    case Sweep(order, now, graceMs) => SweepAlike(a, b, order, now, graceMs);
  }

  function Closes(closed: seq<Socket>, now: int): seq<Event> {
    if closed == [] then [] else Closes(closed[..|closed| - 1], now) + [Close(closed[|closed| - 1], now)]
  }

  lemma {:induction false} CloseAllRuns(w: Relay, closed: seq<Socket>, now: int)
    ensures RunFrom(w, Closes(closed, now)) == CloseAll(w, closed, now)
  {
    if closed != [] {
      hide HandleClose;
      var n := |closed| - 1;
      CloseAllRuns(w, closed[..n], now);
      assert Closes(closed, now)[..|Closes(closed, now)| - 1] == Closes(closed[..n], now);
    }
  }

  lemma RunsOn(w: Relay, events: seq<Event>, ev: Event, closed: seq<Socket>, now: int)
    ensures RunFrom(w, events + [ev] + Closes(closed, now)) == CloseAll(Step(RunFrom(w, events), ev), closed, now)
  {
    hide Step, CloseAll, Closes;
    RunSplits(w, events + [ev], Closes(closed, now));
    assert (events + [ev])[..|events|] == events;
    CloseAllRuns(Step(RunFrom(w, events), ev), closed, now);
  }

  /** Every run with synchronous closes is a run of `RelayRooms`, but for PEER_DISCONNECTED messages to closed peers. */
  lemma {:induction false} SyncRunIsRun(events: seq<Timed>) returns (run: seq<Event>)
    ensures Core(RunNow(events)) == Core(Run(run))
  {
    run := [];
    if events != [] {
      hide Core, StepNow, Step, RunFrom, CloseAll, RoomsOk;
      var n := |events| - 1;
      var a := RunNow(events[..n]);
      var before := SyncRunIsRun(events[..n]);
      var b := Run(before);
      RoomsFine(before, a);
      var closed, at := StepIsStepThenCloses(a, events[n].ev, events[n].now);
      StepAlike(a, b, events[n].ev);
      CloseAllSame(Step(a, events[n].ev), Step(b, events[n].ev), closed, at);
      RunsOn(Empty, before, events[n].ev, closed, at);
      run := before + [events[n].ev] + Closes(closed, at);
    } else {
      assert RunNow([]) == Run([]);
    }
  }

  lemma RoomsFine(events: seq<Event>, a: Relay)
    requires Core(a) == Core(Run(events))
    ensures RoomsOk(a.rooms, a.conns, a.nextSerial)
  {
    RunKept(Empty, events);
    hide RoomsOk, RunFrom;
  }

  // ---- so the promises hold ---------------------------------------------------------------------------------

  lemma {:induction false} PlainHasTheRest(sends: seq<Sent>, s: Sent)
    requires s.message != PeerDisconnected
    ensures s in Plain(sends) <==> s in sends
  {
    if sends != [] {
      PlainHasTheRest(sends[..|sends| - 1], s);
      assert sends == sends[..|sends| - 1] + [sends[|sends| - 1]];
    }
  }

  /** With synchronous closes the relay's invariant holds after every run as well. */
  lemma SyncRunKept(events: seq<Timed>)
    ensures Inv(RunNow(events))
  {
    var run := SyncRunIsRun(events);
    var a, b := RunNow(events), Run(run);
    RunKept(Empty, run);
    hide RunNow, RunFrom, RoomsOk, SerialsOk, SerialsDistinct, HoldersOk, ConnsOk, GrantsOk, GrantsUnique, Plain;
    forall i | 0 <= i < |a.sends|
      ensures Acked(a.sends[i], a.grants)
    {
      if a.sends[i].message.Ack? {
        PlainHasTheRest(a.sends, a.sends[i]);
        PlainHasTheRest(b.sends, a.sends[i]);
        var j :| 0 <= j < |b.sends| && b.sends[j] == a.sends[i];
        assert Acked(b.sends[j], b.grants);
      }
    }
  }
}
