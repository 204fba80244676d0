/** The relay as the server runs it: one object whose registry, sockets and outgoing messages the handlers update. */
module RelayServer {
  import opened Bytes
  import opened Nonce
  import opened RelayRooms
  import opened Wire
  import RelaySafety

  class Server {
    var rooms: map<RoomId, Room>
    var conns: map<Socket, ConnectionData>
    var gone: set<Socket>
    var nextSerial: nat
    var grants: seq<Grant>
    var sends: seq<Sent>

    ghost function View(): (w: Relay)
      reads this
    {
      Relay(rooms, conns, gone, nextSerial, grants, sends)
    }

    constructor ()
      ensures View() == Empty
    {
      rooms, conns, gone, nextSerial, grants, sends := map[], map[], {}, 0, [], [];
    }

    method Send(to: Socket, message: Message)
      modifies `sends
      ensures View() == Say(old(View()), to, message)
    {
      sends := sends + [Sent(to, message)];
    }

    method Open(ws: Socket)
      modifies `conns
      ensures View() == Step(old(View()), Event.Open(ws))
    {
      if ws !in conns && ws !in gone {
        conns := conns[ws := ConnectionData(PendingHello, None, None, 0)];
      }
    }

    /** `addPeer`: the slot given, or None when the room is full. */
    method AddToRoom(id: RoomId, ws: Socket, now: int) returns (slot: Option<Role>)
      requires id in rooms
      modifies `rooms
      ensures slot.Some? <==> HasFreeSlot(old(rooms[id]))
      ensures slot.Some? ==> slot.value == SlotFor(old(rooms[id])) && rooms == old(rooms)[id := AddPeer(old(rooms[id]), ws, now)]
      ensures slot.None? ==> rooms == old(rooms)
    {
      var room := rooms[id];
      if room.initiator.None? {
        rooms := rooms[id := room.(initiator := Some(ws))];
        rooms := rooms[id := rooms[id].(state := if room.joiner.None? then Waiting else Paired)];
        rooms := rooms[id := rooms[id].(lastActivity := now, wasPaired := room.wasPaired || room.joiner.Some?)];
        return Some(Initiator);
      }
      if room.joiner.None? {
        rooms := rooms[id := room.(joiner := Some(ws))];
        rooms := rooms[id := rooms[id].(state := Paired, lastActivity := now, wasPaired := true)];
        return Some(Joiner);
      }
      return None;
    }

    /** `remove`: true when the room had to be deleted. */
    method RemoveFromRoom(id: RoomId, ws: Socket, now: int) returns (closed: bool)
      requires id in rooms
      modifies `rooms
      ensures rooms == RemovePeer(old(rooms), id, ws, now)
      ensures closed <==> id !in rooms
    {
      if rooms[id].initiator == Some(ws) {
        rooms := rooms[id := rooms[id].(initiator := None)];
      }
      if rooms[id].joiner == Some(ws) {
        rooms := rooms[id := rooms[id].(joiner := None)];
      }
      if rooms[id].initiator.None? && rooms[id].joiner.None? {
        rooms := rooms - {id};
        return true;
      }
      rooms := rooms[id := rooms[id].(state := HalfOpen)];
      rooms := rooms[id := rooms[id].(lastActivity := now)];
      return false;
    }

    method CreateRoom(ws: Socket, id: RoomId, limited: bool, now: int, ackDropped: bool)
      requires ws in conns
      modifies this
      ensures View() == HandleCreate(old(View()), ws, id, limited, now, ackDropped)
    {
      if limited {
        Send(ws, Error(RateLimited));
        return;
      }
      if id in rooms {
        Send(ws, Error(RoomAlreadyExists));
        return;
      }
      rooms := rooms[id := Room(Some(ws), None, Waiting, now, now, nextSerial, false)];
      grants := grants + [Grant(ws, id, nextSerial, Initiator, Create)];
      nextSerial := nextSerial + 1;
      conns := conns[ws := conns[ws].(roomId := Some(id), state := WaitingForPeer, role := Some(Initiator))];
      if ackDropped {
        rooms := rooms - {id};
        assert rooms == old(rooms);
      } else {
        Send(ws, Ack(Initiator));
      }
    }

    method JoinOrResume(ws: Socket, id: RoomId, intent: Intent, limited: bool, now: int, ackDropped: bool,
                        joinedDropped: bool)
      requires ws in conns
      modifies this
      ensures View() == HandleJoinOrResume(old(View()), ws, id, intent, limited, now, ackDropped, joinedDropped)
    {
      if limited {
        Send(ws, Error(RateLimited));
        return;
      }
      if id !in rooms {
        Send(ws, Error(RoomNotFound));
        return;
      }
      if rooms[id].state == HalfOpen && intent != Resume {
        Send(ws, Error(RoomFull));
        return;
      }
      if !HasFreeSlot(rooms[id]) {
        Send(ws, Error(RoomFull));
        return;
      }
      SeatAndAnnounce(ws, id, intent, now, ackDropped, joinedDropped);
    }

    method Seat(ws: Socket, id: RoomId, intent: Intent, now: int) returns (slot: Role)
      requires ws in conns && id in rooms && HasFreeSlot(rooms[id])
      modifies this
      ensures View() == TakeSlot(old(View()), ws, id, intent, now)
      ensures slot == SlotFor(old(rooms[id])) && id in rooms
    {
      var remaining := Remaining(rooms[id]);
      var added := AddToRoom(id, ws, now);
      slot := added.value;
      grants := grants + [Grant(ws, id, rooms[id].serial, slot, intent)];
      conns := conns[ws := conns[ws].(roomId := Some(id), state := PairedUp, role := Some(slot))];
      if remaining.Some? && remaining.value in conns {
        conns := conns[remaining.value := conns[remaining.value].(state := PairedUp)];
      }
    }

    method SeatAndAnnounce(ws: Socket, id: RoomId, intent: Intent, now: int, ackDropped: bool, joinedDropped: bool)
      requires ws in conns && id in rooms && HasFreeSlot(rooms[id])
      modifies this
      ensures View() == Enter(old(View()), ws, id, intent, now, ackDropped, joinedDropped)
    {
      hide TakeSlot;
      var remaining := Remaining(rooms[id]);
      var slot := Seat(ws, id, intent, now);
      if ackDropped {
        ghost var seated := rooms;
        var _ := RemoveFromRoom(id, ws, now);
        rooms := rooms - {id};
        assert rooms == seated - {id};
        return;
      }
      Send(ws, Ack(slot));
      if remaining.Some? && remaining != Some(ws) {
        if joinedDropped {
          rooms := rooms - {id};
        } else {
          Send(remaining.value, PeerJoined);
        }
      }
    }

    method HandleHello(ws: Socket, id: RoomId, intent: Intent, versionOk: bool, limited: bool, now: int,
                       ackDropped: bool, joinedDropped: bool)
      requires ws in conns
      modifies this
      ensures View() ==
        RelayRooms.HandleHello(old(View()), ws, id, intent, versionOk, limited, now, ackDropped, joinedDropped)
    {
      if conns[ws].state != PendingHello {
        Send(ws, Error(BadState));
        return;
      }
      if !versionOk {
        Send(ws, Error(UnsupportedVersion));
        return;
      }
      if intent == Create {
        CreateRoom(ws, id, limited, now, ackDropped);
        return;
      }
      JoinOrResume(ws, id, intent, limited, now, ackDropped, joinedDropped);
    }

    method HandleForward(ws: Socket, bytes: seq<Byte>, kind: FrameType, tokenOk: bool, overflow: bool, dropped: bool)
      requires ws in conns
      modifies this
      ensures View() == RelayRooms.HandleForward(old(View()), ws, bytes, kind, tokenOk, overflow, dropped)
    {
      if conns[ws].state != PairedUp {
        Send(ws, Error(BadState));
        return;
      }
      if |bytes| > MAX_WIRE_BYTES {
        Send(ws, Error(MessageTooLarge));
        return;
      }
      if kind == HandshakeFrame && |bytes| != HANDSHAKE_FRAME_LENGTH {
        Send(ws, Error(InvalidPayload));
        return;
      }
      if kind == RelayFrame && !tokenOk {
        Send(ws, Error(RateLimited));
        return;
      }
      var roomId := conns[ws].roomId;
      if roomId.None? || roomId.value !in rooms {
        Send(ws, Error(RoomNotFound));
        return;
      }
      var id := roomId.value;
      var peer := GetPeer(rooms[id], ws);
      if peer.None? {
        if rooms[id].state == HalfOpen {
          if kind == HandshakeFrame && !tokenOk {
            Send(ws, Error(RateLimited));
          }
          return;
        }
        Send(ws, Error(Internal));
        return;
      }
      if kind == HandshakeFrame {
        if conns[ws].handshakeForwards >= MAX_HANDSHAKE_FORWARDS {
          Send(ws, Error(BadState));
          return;
        }
        conns := conns[ws := conns[ws].(handshakeForwards := conns[ws].handshakeForwards + 1)];
      }
      if overflow {
        rooms := rooms - {id};
        return;
      }
      if dropped {
        Send(ws, Error(Internal));
        Send(peer.value, Error(Internal));
        rooms := rooms - {id};
        return;
      }
      Send(peer.value, Frame(bytes));
    }

    method HandleClose(ws: Socket, now: int)
      requires ws in conns
      modifies this
      ensures View() == RelayRooms.HandleClose(old(View()), ws, now)
    {
      var roomId := conns[ws].roomId;
      conns := conns - {ws};
      gone := gone + {ws};
      if roomId.None? || roomId.value !in rooms {
        return;
      }
      var closed := RemoveFromRoom(roomId.value, ws, now);
      if closed {
        return;
      }
      var remaining := Remaining(rooms[roomId.value]);
      if remaining.Some? && remaining != Some(ws) {
        Send(remaining.value, PeerDisconnected);
      }
    }

    /** One turn of the sweep's loop; the two results count what it deleted. */
    method SweepRoom(id: RoomId, now: int, graceMs: int) returns (waiting: nat, grace: nat)
      requires id in rooms
      modifies this
      ensures View() == SweepOne(old(View()), id, now, graceMs)
      ensures waiting == (if Expired(old(rooms[id]), now, graceMs) && old(rooms[id]).state == Waiting then 1 else 0)
      ensures grace == (if Expired(old(rooms[id]), now, graceMs) && old(rooms[id]).state == HalfOpen then 1 else 0)
      ensures waiting + grace + |rooms| == |old(rooms)|
      ensures forall id' | id' in old(rooms) && id' != id :: id' in rooms
    {
      var room := rooms[id];
      waiting, grace := 0, 0;
      if room.state == Waiting && now - room.createdAt > INITIATOR_WAIT_TIMEOUT_MS {
        rooms := rooms - {id};
        waiting := 1;
      } else if room.state == HalfOpen && now - room.lastActivity >= graceMs {
        var remaining := Remaining(room);
        if remaining.Some? {
          Send(remaining.value, PeerLeft);
        }
        rooms := rooms - {id};
        grace := 1;
      }
    }

    /** The sweep over a snapshot of the registry: it deletes exactly the expired rooms and counts them. */
    method Sweep(order: seq<RoomId>, now: int, graceMs: int) returns (waitingExpired: nat, graceExpired: nat)
      requires forall i, j | 0 <= i < j < |order| :: order[i] != order[j]
      requires forall id :: id in order <==> id in rooms
      modifies this
      ensures View() == Step(old(View()), Event.Sweep(order, now, graceMs))
      ensures forall id :: id in rooms <==> id in old(rooms) && !Expired(old(rooms)[id], now, graceMs)
      ensures waitingExpired + graceExpired + |rooms| == |old(rooms)|
    {
      hide SweepOne, Expired;
      waitingExpired, graceExpired := 0, 0;
      var i := 0;
      while i < |order|
        invariant 0 <= i <= |order|
        invariant View() == SweepRooms(old(View()), order[..i], now, graceMs)
        invariant forall j | i <= j < |order| :: order[j] in rooms
        invariant waitingExpired + graceExpired + |rooms| == |old(rooms)|
      {
        assert order[..i + 1][..i] == order[..i];
        var waiting, grace := SweepRoom(order[i], now, graceMs);
        waitingExpired, graceExpired := waitingExpired + waiting, graceExpired + grace;
        i := i + 1;
      }
      assert order[..|order|] == order;
      RelaySafety.SweepIsExact(old(View()), order, now, graceMs);
    }
  }
}
