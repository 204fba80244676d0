/**
 What every run of the relay keeps: who holds which slot, what each room state means, where frames may go, and who
 may enter a room that has been paired.
 */
module RelaySafety {
  import opened Bytes
  import opened Nonce
  import opened RelayRooms
  import opened Wire

  // ---- the invariant ------------------------------------------------------------------------------------

  ghost predicate SlotOk(slot: Option<Socket>, role: Role, id: RoomId, conns: map<Socket, ConnectionData>) {
    slot.Some? ==>
      && slot.value in conns
      && conns[slot.value].roomId == Some(id)
      && conns[slot.value].role == Some(role)
  }

  /** What each room state says about the slots. */
  ghost predicate ShapeOk(room: Room) {
    && (room.initiator.Some? || room.joiner.Some?)
    && (room.state == Paired ==> room.initiator.Some? && room.joiner.Some? && room.wasPaired)
    && (room.state == Waiting ==> room.initiator.Some? && room.joiner.None? && !room.wasPaired)
  }

  /** Two occupants of one room have both been marked paired. */
  ghost predicate PairOk(room: Room, conns: map<Socket, ConnectionData>) {
    forall role: Role | room.Slot(role).Some? && room.Slot(role.Peer()).Some? ::
      room.Slot(role).value in conns && conns[room.Slot(role).value].state == PairedUp
  }

  ghost predicate RoomOk(id: RoomId, room: Room, conns: map<Socket, ConnectionData>, nextSerial: nat) {
    && SlotOk(room.initiator, Initiator, id, conns)
    && SlotOk(room.joiner, Joiner, id, conns)
    && PairOk(room, conns)
    && ShapeOk(room)
    && room.serial < nextSerial
  }

  ghost predicate RoomsOk(rooms: map<RoomId, Room>, conns: map<Socket, ConnectionData>, nextSerial: nat) {
    forall id | id in rooms :: RoomOk(id, rooms[id], conns, nextSerial)
  }

  ghost predicate SerialsOk(rooms: map<RoomId, Room>, grants: seq<Grant>) {
    forall id, i | id in rooms && 0 <= i < |grants| :: grants[i].serial == rooms[id].serial ==> grants[i].roomId == id
  }

  ghost predicate SerialsDistinct(rooms: map<RoomId, Room>) {
    forall id, id' | id in rooms && id' in rooms :: rooms[id].serial == rooms[id'].serial ==> id == id'
  }

  ghost predicate HeldOk(slot: Option<Socket>, role: Role, id: RoomId, serial: nat, grants: seq<Grant>) {
    slot.Some? ==>
      exists i :: 0 <= i < |grants| && GrantFor(grants[i], slot.value, id, serial, role)
  }

  ghost predicate GrantFor(g: Grant, ws: Socket, id: RoomId, serial: nat, role: Role) {
    g.ws == ws && g.roomId == id && g.serial == serial && g.role == role
  }

  /** Every occupied slot was granted to its occupant, in this very room. */
  ghost predicate HoldersOk(rooms: map<RoomId, Room>, grants: seq<Grant>) {
    forall id, role: Role | id in rooms :: HeldOk(rooms[id].Slot(role), role, id, rooms[id].serial, grants)
  }

  ghost predicate Ungranted(ws: Socket, grants: seq<Grant>) {
    forall i | 0 <= i < |grants| :: grants[i].ws != ws
  }

  ghost predicate ConnOk(ws: Socket, data: ConnectionData, grants: seq<Grant>) {
    && (data.roomId.None? <==> data.state == PendingHello)
    && (data.roomId.None? <==> data.role.None?)
    && (data.roomId.None? ==> Ungranted(ws, grants))
    && data.handshakeForwards <= MAX_HANDSHAKE_FORWARDS
  }

  ghost predicate ConnsOk(conns: map<Socket, ConnectionData>, gone: set<Socket>, grants: seq<Grant>) {
    forall ws | ws in conns :: ws !in gone && ConnOk(ws, conns[ws], grants)
  }

  ghost predicate GrantOk(g: Grant, conns: map<Socket, ConnectionData>, gone: set<Socket>, nextSerial: nat) {
    && g.serial < nextSerial
    && (g.ws in conns || g.ws in gone)
    && (g.ws in conns ==> conns[g.ws].roomId == Some(g.roomId) && conns[g.ws].role == Some(g.role))
  }

  ghost predicate GrantsOk(grants: seq<Grant>, conns: map<Socket, ConnectionData>, gone: set<Socket>, nextSerial: nat) {
    forall i | 0 <= i < |grants| :: GrantOk(grants[i], conns, gone, nextSerial)
  }

  ghost predicate GrantsUnique(grants: seq<Grant>) {
    forall i, j | 0 <= i < j < |grants| :: grants[i].ws != grants[j].ws
  }

  ghost predicate Acked(s: Sent, grants: seq<Grant>) {
    s.message.Ack? ==> exists i :: 0 <= i < |grants| && grants[i].ws == s.to && grants[i].role == s.message.role
  }

  ghost predicate AcksOk(sends: seq<Sent>, grants: seq<Grant>) {
    forall i | 0 <= i < |sends| :: Acked(sends[i], grants)
  }

  ghost predicate Inv(w: Relay) {
    && RoomsOk(w.rooms, w.conns, w.nextSerial)
    && SerialsOk(w.rooms, w.grants)
    && SerialsDistinct(w.rooms)
    && HoldersOk(w.rooms, w.grants)
    && ConnsOk(w.conns, w.gone, w.grants)
    && GrantsOk(w.grants, w.conns, w.gone, w.nextSerial)
    && GrantsUnique(w.grants)
    && AcksOk(w.sends, w.grants)
  }

  lemma SayKeeps(w: Relay, to: Socket, message: Message)
    requires Inv(w) && !message.Ack?
    ensures Inv(Say(w, to, message))
  {}

  lemma DeleteKeeps(w: Relay, id: RoomId)
    requires Inv(w)
    ensures Inv(w.(rooms := w.rooms - {id}))
  {}

  // ---- every handler keeps it ---------------------------------------------------------------------------

  /** The state after a socket without a slot has been given the slot `role` of room `id`. */
  function Seated(w: Relay, ws: Socket, id: RoomId, room: Room, data: ConnectionData, nextSerial: nat, intent: Intent)
    : Relay
    requires data.role.Some?
  {
    w.(rooms := w.rooms[id := room], conns := w.conns[ws := data], nextSerial := nextSerial,
       grants := w.grants + [Grant(ws, id, room.serial, data.role.value, intent)])
  }

  lemma SeatKeeps(w: Relay, ws: Socket, id: RoomId, room: Room, data: ConnectionData, nextSerial: nat, intent: Intent)
    requires Inv(w)
    requires ws in w.conns && w.conns[ws].state == PendingHello
    requires data.roomId == Some(id) && data.role.Some? && data.state != PendingHello
    requires data.handshakeForwards == w.conns[ws].handshakeForwards
    requires w.nextSerial <= nextSerial
    requires ShapeOk(room) && room.serial < nextSerial
    requires room.Slot(data.role.value) == Some(ws)
    requires SlotOk(room.Slot(data.role.value.Peer()), data.role.value.Peer(), id, w.conns)
    requires if id in w.rooms then room.serial == w.rooms[id].serial else room.serial == w.nextSerial
    requires PairOk(room, w.conns[ws := data])
    requires room.Slot(data.role.value.Peer()).Some? ==>
      id in w.rooms && room.Slot(data.role.value.Peer()) == w.rooms[id].Slot(data.role.value.Peer())
    ensures Inv(Seated(w, ws, id, room, data, nextSerial, intent))
    ensures Acked(Sent(ws, Ack(data.role.value)), Seated(w, ws, id, room, data, nextSerial, intent).grants)
  {
    var role := data.role.value;
    var w' := Seated(w, ws, id, room, data, nextSerial, intent);
    assert w'.grants[|w.grants|] == Grant(ws, id, room.serial, role, intent);
    SeatKeepsRooms(w, ws, id, room, data, nextSerial);
    SeatKeepsGrants(w, ws, id, room, data, nextSerial, intent);
    SeatKeepsSerials(w, ws, id, room, role, nextSerial, intent);
    SeatKeepsHolders(w, ws, id, room, role, intent);
    forall i | 0 <= i < |w'.sends|
      ensures Acked(w'.sends[i], w'.grants)
    {
      if w.sends[i].message.Ack? {
        var k :| 0 <= k < |w.grants| && w.grants[k].ws == w.sends[i].to && w.grants[k].role == w.sends[i].message.role;
        assert w'.grants[k] == w.grants[k];
      }
    }
  }

  lemma SeatKeepsRooms(w: Relay, ws: Socket, id: RoomId, room: Room, data: ConnectionData, nextSerial: nat)
    requires RoomsOk(w.rooms, w.conns, w.nextSerial)
    requires ws in w.conns && w.conns[ws].roomId.None?
    requires data.roomId == Some(id) && data.role.Some?
    requires w.nextSerial <= nextSerial
    requires ShapeOk(room) && room.serial < nextSerial
    requires room.Slot(data.role.value) == Some(ws)
    requires SlotOk(room.Slot(data.role.value.Peer()), data.role.value.Peer(), id, w.conns)
    requires PairOk(room, w.conns[ws := data])
    ensures RoomsOk(w.rooms[id := room], w.conns[ws := data], nextSerial)
  {
    var conns := w.conns[ws := data];
    var rooms := w.rooms[id := room];
    forall id' | id' in rooms
      ensures RoomOk(id', rooms[id'], conns, nextSerial)
    {
      if id' == id {
        assert data.role == Some(Initiator) || data.role == Some(Joiner);
      } else {
        assert RoomOk(id', w.rooms[id'], w.conns, w.nextSerial);
      }
    }
  }

  lemma SeatKeepsGrants(w: Relay, ws: Socket, id: RoomId, room: Room, data: ConnectionData, nextSerial: nat,
                        intent: Intent)
    requires ConnsOk(w.conns, w.gone, w.grants) && GrantsOk(w.grants, w.conns, w.gone, w.nextSerial)
    requires GrantsUnique(w.grants)
    requires ws in w.conns && w.conns[ws].state == PendingHello
    requires data.roomId == Some(id) && data.role.Some? && data.state != PendingHello
    requires data.handshakeForwards == w.conns[ws].handshakeForwards
    requires w.nextSerial <= nextSerial && room.serial < nextSerial
    ensures var w' := Seated(w, ws, id, room, data, nextSerial, intent);
      && ConnsOk(w'.conns, w'.gone, w'.grants)
      && GrantsOk(w'.grants, w'.conns, w'.gone, w'.nextSerial)
      && GrantsUnique(w'.grants)
  {
    var w' := Seated(w, ws, id, room, data, nextSerial, intent);
    assert ConnOk(ws, w.conns[ws], w.grants);
    forall ws' | ws' in w'.conns
      ensures ws' !in w'.gone && ConnOk(ws', w'.conns[ws'], w'.grants)
    {
      assert ConnOk(ws', w.conns[ws'], w.grants);
    }
    forall i | 0 <= i < |w'.grants|
      ensures GrantOk(w'.grants[i], w'.conns, w'.gone, nextSerial)
    {
      if i < |w.grants| {
        assert GrantOk(w.grants[i], w.conns, w.gone, w.nextSerial);
      }
    }
  }

  lemma SeatKeepsSerials(w: Relay, ws: Socket, id: RoomId, room: Room, role: Role, nextSerial: nat, intent: Intent)
    requires RoomsOk(w.rooms, w.conns, w.nextSerial) && SerialsOk(w.rooms, w.grants)
    requires GrantsOk(w.grants, w.conns, w.gone, w.nextSerial)
    requires SerialsDistinct(w.rooms)
    requires if id in w.rooms then room.serial == w.rooms[id].serial else room.serial == w.nextSerial
    ensures SerialsOk(w.rooms[id := room], w.grants + [Grant(ws, id, room.serial, role, intent)])
    ensures SerialsDistinct(w.rooms[id := room])
  {
  }

  lemma HeldGrows(slot: Option<Socket>, role: Role, id: RoomId, serial: nat, grants: seq<Grant>, more: seq<Grant>)
    requires HeldOk(slot, role, id, serial, grants)
    ensures HeldOk(slot, role, id, serial, grants + more)
  {
    if slot.Some? {
      var i :| 0 <= i < |grants| && GrantFor(grants[i], slot.value, id, serial, role);
      assert (grants + more)[i] == grants[i];
    }
  }

  lemma SeatKeepsHolders(w: Relay, ws: Socket, id: RoomId, room: Room, role: Role, intent: Intent)
    requires HoldersOk(w.rooms, w.grants)
    requires id in w.rooms ==> room.serial == w.rooms[id].serial
    requires room.Slot(role) == Some(ws)
    requires room.Slot(role.Peer()).Some? ==>
      id in w.rooms && room.Slot(role.Peer()) == w.rooms[id].Slot(role.Peer())
    ensures HoldersOk(w.rooms[id := room], w.grants + [Grant(ws, id, room.serial, role, intent)])
  {
    var g := Grant(ws, id, room.serial, role, intent);
    var rooms := w.rooms[id := room];
    forall id', role': Role | id' in rooms
      ensures HeldOk(rooms[id'].Slot(role'), role', id', rooms[id'].serial, w.grants + [g])
    {
      if id' == id && role' == role {
        assert (w.grants + [g])[|w.grants|] == g;
        assert GrantFor((w.grants + [g])[|w.grants|], ws, id, room.serial, role);
      } else if id' in w.rooms {
        assert role' == role || role' == role.Peer();
        HeldGrows(w.rooms[id'].Slot(role'), role', id', w.rooms[id'].serial, w.grants, [g]);
      }
    }
  }

  /** Marking the remaining occupant paired changes nothing the invariant reads. */
  lemma MarkKeeps(w: Relay, ws: Socket)
    requires Inv(w)
    requires ws in w.conns && w.conns[ws].roomId.Some?
    ensures Inv(w.(conns := w.conns[ws := w.conns[ws].(state := PairedUp)]))
  {
    var w' := w.(conns := w.conns[ws := w.conns[ws].(state := PairedUp)]);
    forall id | id in w'.rooms
      ensures RoomOk(id, w'.rooms[id], w'.conns, w'.nextSerial)
    {
      assert RoomOk(id, w.rooms[id], w.conns, w.nextSerial);
    }
    forall ws' | ws' in w'.conns
      ensures ws' !in w'.gone && ConnOk(ws', w'.conns[ws'], w'.grants)
    {
      assert ConnOk(ws', w.conns[ws'], w.grants);
    }
    forall i | 0 <= i < |w'.grants|
      ensures GrantOk(w'.grants[i], w'.conns, w'.gone, w'.nextSerial)
    {
      assert GrantOk(w.grants[i], w.conns, w.gone, w.nextSerial);
    }
  }

  lemma CreateKeeps(w: Relay, ws: Socket, id: RoomId, limited: bool, now: int, ackDropped: bool)
    requires Inv(w) && ws in w.conns && w.conns[ws].state == PendingHello
    ensures Inv(HandleCreate(w, ws, id, limited, now, ackDropped))
  {
    if limited {
      SayKeeps(w, ws, Error(RateLimited));
    } else if id in w.rooms {
      SayKeeps(w, ws, Error(RoomAlreadyExists));
    } else {
      var room := Room(Some(ws), None, Waiting, now, now, w.nextSerial, false);
      var data := w.conns[ws].(roomId := Some(id), state := WaitingForPeer, role := Some(Initiator));
      SeatKeeps(w, ws, id, room, data, w.nextSerial + 1, Create);
      var seated := Seated(w, ws, id, room, data, w.nextSerial + 1, Create);
      if ackDropped {
        DeleteKeeps(seated, id);
        assert seated.rooms - {id} == w.rooms;
      }
    }
  }

  /** The room and the connection a newcomer gets. */
  lemma EnterSeats(w: Relay, ws: Socket, id: RoomId, now: int)
    requires Inv(w) && ws in w.conns && w.conns[ws].state == PendingHello
    requires id in w.rooms && HasFreeSlot(w.rooms[id])
    ensures
      var existing := w.rooms[id];
      var role := SlotFor(existing);
      var room := AddPeer(existing, ws, now);
      && Remaining(existing) == existing.Slot(role.Peer())
      && Remaining(existing).Some? && Remaining(existing).value in w.conns && Remaining(existing) != Some(ws)
      && w.conns[Remaining(existing).value].roomId == Some(id)
      && ShapeOk(room) && room.serial == existing.serial < w.nextSerial
      && existing.Slot(role).None? && room.Slot(role) == Some(ws) && room.Slot(role.Peer()) == existing.Slot(role.Peer())
      && SlotOk(room.Slot(role.Peer()), role.Peer(), id, w.conns)
  {
    assert RoomOk(id, w.rooms[id], w.conns, w.nextSerial);
    assert ConnOk(ws, w.conns[ws], w.grants);
  }

  lemma TakeSlotKeeps(w: Relay, ws: Socket, id: RoomId, intent: Intent, now: int)
    requires Inv(w) && ws in w.conns && w.conns[ws].state == PendingHello
    requires id in w.rooms && HasFreeSlot(w.rooms[id])
    ensures Inv(TakeSlot(w, ws, id, intent, now))
    ensures Acked(Sent(ws, Ack(SlotFor(w.rooms[id]))), TakeSlot(w, ws, id, intent, now).grants)
  {
    EnterSeats(w, ws, id, now);
    var existing := w.rooms[id];
    var other := Remaining(existing).value;
    var role := SlotFor(existing);
    var room := AddPeer(existing, ws, now);
    var data := w.conns[ws].(roomId := Some(id), state := PairedUp, role := Some(role));
    MarkKeeps(w, other);
    hide Inv;
    var marked := w.(conns := w.conns[other := w.conns[other].(state := PairedUp)]);
    SeatKeeps(marked, ws, id, room, data, w.nextSerial, intent);
    assert w.conns[ws := data][other := w.conns[other].(state := PairedUp)] == marked.conns[ws := data];
    assert TakeSlot(w, ws, id, intent, now) == Seated(marked, ws, id, room, data, w.nextSerial, intent);
  }

  lemma AckKeeps(w: Relay, ws: Socket, role: Role)
    requires Inv(w) && Acked(Sent(ws, Ack(role)), w.grants)
    ensures Inv(Say(w, ws, Ack(role)))
  {}

  lemma EnterKeeps(w: Relay, ws: Socket, id: RoomId, intent: Intent, now: int, ackDropped: bool, joinedDropped: bool)
    requires Inv(w) && ws in w.conns && w.conns[ws].state == PendingHello
    requires id in w.rooms && HasFreeSlot(w.rooms[id])
    ensures Inv(Enter(w, ws, id, intent, now, ackDropped, joinedDropped))
  {
    TakeSlotKeeps(w, ws, id, intent, now);
    hide Inv, TakeSlot, Acked;
    var seated := TakeSlot(w, ws, id, intent, now);
    var acked := Say(seated, ws, Ack(SlotFor(w.rooms[id])));
    DeleteKeeps(seated, id);
    AckKeeps(seated, ws, SlotFor(w.rooms[id]));
    DeleteKeeps(acked, id);
    if Remaining(w.rooms[id]).Some? {
      SayKeeps(acked, Remaining(w.rooms[id]).value, PeerJoined);
    }
  }

  lemma HelloKeeps(w: Relay, ws: Socket, id: RoomId, intent: Intent, versionOk: bool, limited: bool, now: int,
                   ackDropped: bool, joinedDropped: bool)
    requires Inv(w) && ws in w.conns
    ensures Inv(HandleHello(w, ws, id, intent, versionOk, limited, now, ackDropped, joinedDropped))
  {
    hide Inv;
    if w.conns[ws].state != PendingHello {
      SayKeeps(w, ws, Error(BadState));
    } else if !versionOk {
      SayKeeps(w, ws, Error(UnsupportedVersion));
    } else if intent == Create {
      CreateKeeps(w, ws, id, limited, now, ackDropped);
    } else if limited {
      SayKeeps(w, ws, Error(RateLimited));
    } else if id !in w.rooms {
      SayKeeps(w, ws, Error(RoomNotFound));
    } else if (w.rooms[id].state == HalfOpen && intent != Resume) || !HasFreeSlot(w.rooms[id]) {
      SayKeeps(w, ws, Error(RoomFull));
    } else {
      EnterKeeps(w, ws, id, intent, now, ackDropped, joinedDropped);
    }
  }

  /** Counting a forwarded handshake changes nothing else. */
  lemma CountKeeps(w: Relay, ws: Socket)
    requires Inv(w) && ws in w.conns && w.conns[ws].handshakeForwards < MAX_HANDSHAKE_FORWARDS
    ensures Inv(w.(conns := w.conns[ws := w.conns[ws].(handshakeForwards := w.conns[ws].handshakeForwards + 1)]))
  {
    var w' := w.(conns := w.conns[ws := w.conns[ws].(handshakeForwards := w.conns[ws].handshakeForwards + 1)]);
    forall id | id in w'.rooms
      ensures RoomOk(id, w'.rooms[id], w'.conns, w'.nextSerial)
    {
      assert RoomOk(id, w.rooms[id], w.conns, w.nextSerial);
    }
    forall ws' | ws' in w'.conns
      ensures ws' !in w'.gone && ConnOk(ws', w'.conns[ws'], w'.grants)
    {
      assert ConnOk(ws', w.conns[ws'], w.grants);
    }
    forall i | 0 <= i < |w'.grants|
      ensures GrantOk(w'.grants[i], w'.conns, w'.gone, w'.nextSerial)
    {
      assert GrantOk(w.grants[i], w.conns, w.gone, w.nextSerial);
    }
  }

  lemma ForwardKeeps(w: Relay, ws: Socket, bytes: seq<Byte>, kind: FrameType, tokenOk: bool, overflow: bool,
                     dropped: bool)
    requires Inv(w) && ws in w.conns
    ensures Inv(HandleForward(w, ws, bytes, kind, tokenOk, overflow, dropped))
  {
    hide Inv;
    forall code {
      SayKeeps(w, ws, Error(code));
    }
    var data := w.conns[ws];
    if data.roomId.Some? && data.roomId.value in w.rooms && GetPeer(w.rooms[data.roomId.value], ws).Some? {
      var id := data.roomId.value;
      var peer := GetPeer(w.rooms[id], ws).value;
      if kind == RelayFrame {
        SendKeeps(w, ws, peer, id, bytes);
      } else if data.handshakeForwards < MAX_HANDSHAKE_FORWARDS {
        CountKeeps(w, ws);
        SendKeeps(w.(conns := w.conns[ws := data.(handshakeForwards := data.handshakeForwards + 1)]), ws, peer, id, bytes);
      }
    }
  }

  lemma SendKeeps(w: Relay, ws: Socket, peer: Socket, id: RoomId, bytes: seq<Byte>)
    requires Inv(w)
    ensures Inv(w.(rooms := w.rooms - {id}))
    ensures Inv(Say(Say(w, ws, Error(Internal)), peer, Error(Internal)).(rooms := w.rooms - {id}))
    ensures Inv(Say(w, peer, Frame(bytes)))
  {
    hide Inv;
    DeleteKeeps(w, id);
    SayKeeps(w, ws, Error(Internal));
    SayKeeps(Say(w, ws, Error(Internal)), peer, Error(Internal));
    DeleteKeeps(Say(Say(w, ws, Error(Internal)), peer, Error(Internal)), id);
    SayKeeps(w, peer, Frame(bytes));
  }

  /** A closing socket is in no slot of a room it did not name. */
  lemma OtherRoomsKept(w: Relay, ws: Socket, id: RoomId)
    requires ws in w.conns && id in w.rooms && w.conns[ws].roomId != Some(id)
    requires RoomOk(id, w.rooms[id], w.conns, w.nextSerial)
    ensures RoomOk(id, w.rooms[id], w.conns - {ws}, w.nextSerial)
  {
    var room := w.rooms[id];
    forall role: Role | room.Slot(role).Some? && room.Slot(role.Peer()).Some?
      ensures room.Slot(role).value in w.conns - {ws} && (w.conns - {ws})[room.Slot(role).value].state == PairedUp
    {
      assert SlotOk(room.Slot(role), role, id, w.conns);
    }
  }

  lemma OwnRoomKept(w: Relay, ws: Socket, id: RoomId, now: int)
    requires ws in w.conns && id in w.rooms
    requires RoomOk(id, w.rooms[id], w.conns, w.nextSerial)
    requires id in RemovePeer(w.rooms, id, ws, now)
    ensures RoomOk(id, RemovePeer(w.rooms, id, ws, now)[id], w.conns - {ws}, w.nextSerial)
  {
    var room := w.rooms[id];
    var room' := RemovePeer(w.rooms, id, ws, now)[id];
    forall role: Role | room'.Slot(role).Some? && room'.Slot(role.Peer()).Some?
      ensures room'.Slot(role).value in w.conns - {ws} && (w.conns - {ws})[room'.Slot(role).value].state == PairedUp
    {
      assert SlotOk(room.Slot(role), role, id, w.conns);
      assert room'.Slot(role) == room.Slot(role) && room'.Slot(role.Peer()) == room.Slot(role.Peer());
    }
  }

  lemma CloseKeepsRooms(w: Relay, ws: Socket, now: int)
    requires RoomsOk(w.rooms, w.conns, w.nextSerial) && ws in w.conns
    ensures
      var roomId := w.conns[ws].roomId;
      var conns := w.conns - {ws};
      && ((roomId.None? || roomId.value !in w.rooms) ==> RoomsOk(w.rooms, conns, w.nextSerial))
      && ((roomId.Some? && roomId.value in w.rooms) ==>
            RoomsOk(RemovePeer(w.rooms, roomId.value, ws, now), conns, w.nextSerial))
  {
    hide RoomOk;
    var roomId := w.conns[ws].roomId;
    forall id | id in w.rooms && roomId != Some(id)
      ensures RoomOk(id, w.rooms[id], w.conns - {ws}, w.nextSerial)
    {
      OtherRoomsKept(w, ws, id);
    }
    if roomId.Some? && roomId.value in w.rooms && roomId.value in RemovePeer(w.rooms, roomId.value, ws, now) {
      OwnRoomKept(w, ws, roomId.value, now);
    }
  }

  lemma CloseKeepsHolders(w: Relay, ws: Socket, now: int)
    requires HoldersOk(w.rooms, w.grants) && SerialsOk(w.rooms, w.grants) && SerialsDistinct(w.rooms) && ws in w.conns
    ensures var rooms := HandleClose(w, ws, now).rooms;
      HoldersOk(rooms, w.grants) && SerialsOk(rooms, w.grants) && SerialsDistinct(rooms)
  {
    var w' := HandleClose(w, ws, now);
    assert forall id | id in w'.rooms :: id in w.rooms && w'.rooms[id].serial == w.rooms[id].serial;
    forall id, role: Role | id in w'.rooms
      ensures HeldOk(w'.rooms[id].Slot(role), role, id, w'.rooms[id].serial, w'.grants)
    {
      assert HeldOk(w.rooms[id].Slot(role), role, id, w.rooms[id].serial, w.grants);
      assert w'.rooms[id].Slot(role).None? || w'.rooms[id].Slot(role) == w.rooms[id].Slot(role);
    }
  }

  lemma CloseKeepsConns(w: Relay, ws: Socket)
    requires ConnsOk(w.conns, w.gone, w.grants) && GrantsOk(w.grants, w.conns, w.gone, w.nextSerial)
    ensures ConnsOk(w.conns - {ws}, w.gone + {ws}, w.grants)
    ensures GrantsOk(w.grants, w.conns - {ws}, w.gone + {ws}, w.nextSerial)
  {
    forall i | 0 <= i < |w.grants|
      ensures GrantOk(w.grants[i], w.conns - {ws}, w.gone + {ws}, w.nextSerial)
    {
      assert GrantOk(w.grants[i], w.conns, w.gone, w.nextSerial);
    }
  }

  lemma CloseKeeps(w: Relay, ws: Socket, now: int)
    requires Inv(w) && ws in w.conns
    ensures Inv(HandleClose(w, ws, now))
  {
    CloseKeepsRooms(w, ws, now);
    CloseKeepsHolders(w, ws, now);
    CloseKeepsConns(w, ws);
    hide RoomsOk, HoldersOk, SerialsOk, SerialsDistinct, ConnsOk, GrantsOk, GrantsUnique;
  }

  lemma {:induction false} SweepKeeps(w: Relay, order: seq<RoomId>, now: int, graceMs: int)
    requires Inv(w)
    ensures Inv(SweepRooms(w, order, now, graceMs))
  {
    hide Inv;
    if order != [] {
      var last := order[|order| - 1];
      SweepKeeps(w, order[..|order| - 1], now, graceMs);
      var mid := SweepRooms(w, order[..|order| - 1], now, graceMs);
      DeleteKeeps(mid, last);
      if last in mid.rooms && Remaining(mid.rooms[last]).Some? {
        SayKeeps(mid.(rooms := mid.rooms - {last}), Remaining(mid.rooms[last]).value, PeerLeft);
      }
    }
  }

  lemma OpenKeeps(w: Relay, ws: Socket)
    requires Inv(w)
    ensures Inv(Step(w, Open(ws)))
  {
    var w' := Step(w, Open(ws));
    forall id | id in w'.rooms
      ensures RoomOk(id, w'.rooms[id], w'.conns, w'.nextSerial)
    {
      assert RoomOk(id, w.rooms[id], w.conns, w.nextSerial);
    }
    forall i | 0 <= i < |w'.grants|
      ensures GrantOk(w'.grants[i], w'.conns, w'.gone, w'.nextSerial) && (ws !in w.conns && ws !in w.gone ==> w.grants[i].ws != ws)
    {
      assert GrantOk(w.grants[i], w.conns, w.gone, w.nextSerial);
    }
  }

  lemma StepKeeps(w: Relay, ev: Event)
    requires Inv(w)
    ensures Inv(Step(w, ev))
  {
    hide Inv;
    match ev
    case Open(ws) => OpenKeeps(w, ws);
    case Hello(ws, id, intent, versionOk, limited, now, ackDropped, joinedDropped) =>
      if ws in w.conns {
        HelloKeeps(w, ws, id, intent, versionOk, limited, now, ackDropped, joinedDropped);
      }
    case Forward(ws, bytes, kind, tokenOk, overflow, dropped) =>
      if ws in w.conns {
        ForwardKeeps(w, ws, bytes, kind, tokenOk, overflow, dropped);
      }
    case Close(ws, now) =>
      if ws in w.conns {
        CloseKeeps(w, ws, now);
      }
    case Sweep(order, now, graceMs) => SweepKeeps(w, order, now, graceMs);
  }

  lemma {:induction false} RunKept(w: Relay, events: seq<Event>)
    requires Inv(w)
    ensures Inv(RunFrom(w, events))
  {
    if events != [] {
      RunKept(w, events[..|events| - 1]);
      StepKeeps(RunFrom(w, events[..|events| - 1]), events[|events| - 1]);
    }
  }

  // ---- slots for life -------------------------------------------------------------------------------------

  /** What a step adds to the list of granted slots: at most one, to the sender of a HELLO. */
  ghost predicate NewGrant(w: Relay, ev: Event, g: Grant) {
    && ev.Hello? && g.ws == ev.ws && g.roomId == ev.id && g.intent == ev.intent
    && if g.intent == Create then
         g.roomId !in w.rooms && g.role == Initiator && g.serial == w.nextSerial
       else
         && g.roomId in w.rooms && g.serial == w.rooms[g.roomId].serial
         && w.rooms[g.roomId].Slot(g.role).None? && w.rooms[g.roomId].Slot(g.role.Peer()).Some?
         && (w.rooms[g.roomId].state == HalfOpen ==> g.intent == Resume)
  }

  ghost predicate GrantStep(w: Relay, ev: Event, w': Relay) {
    || w'.grants == w.grants
    || exists g :: NewGrant(w, ev, g) && w'.grants == w.grants + [g]
  }

  lemma EnterGrants(w: Relay, ev: Event)
    requires Inv(w) && ev.Hello? && ev.ws in w.conns && w.conns[ev.ws].state == PendingHello && ev.intent != Create
    requires ev.id in w.rooms && HasFreeSlot(w.rooms[ev.id])
    requires w.rooms[ev.id].state == HalfOpen ==> ev.intent == Resume
    ensures GrantStep(w, ev, Enter(w, ev.ws, ev.id, ev.intent, ev.now, ev.ackDropped, ev.joinedDropped))
  {
    EnterSeats(w, ev.ws, ev.id, ev.now);
    var existing := w.rooms[ev.id];
    assert NewGrant(w, ev, Grant(ev.ws, ev.id, existing.serial, SlotFor(existing), ev.intent));
  }

  lemma StepGrants(w: Relay, ev: Event)
    requires Inv(w)
    ensures GrantStep(w, ev, Step(w, ev))
  {
    hide Inv;
    match ev
    case Hello(ws, id, intent, versionOk, limited, now, ackDropped, joinedDropped) =>
      if ws in w.conns && w.conns[ws].state == PendingHello && versionOk && !limited {
        if intent == Create {
          assert NewGrant(w, ev, Grant(ws, id, w.nextSerial, Initiator, Create)) || id in w.rooms;
        } else if id in w.rooms && (w.rooms[id].state == HalfOpen ==> intent == Resume) && HasFreeSlot(w.rooms[id]) {
          EnterGrants(w, ev);
        }
      }
    case Sweep(order, now, graceMs) => SweepGrants(w, order, now, graceMs);
    case _ =>
  }

  lemma {:induction false} SweepGrants(w: Relay, order: seq<RoomId>, now: int, graceMs: int)
    ensures SweepRooms(w, order, now, graceMs).grants == w.grants
    ensures SweepRooms(w, order, now, graceMs).nextSerial == w.nextSerial
    ensures forall id | id in SweepRooms(w, order, now, graceMs).rooms ::
      id in w.rooms && SweepRooms(w, order, now, graceMs).rooms[id] == w.rooms[id]
  {
    if order != [] {
      SweepGrants(w, order[..|order| - 1], now, graceMs);
    }
  }

  lemma {:induction false} GrantsGrow(w: Relay, events: seq<Event>)
    requires Inv(w)
    ensures w.grants <= RunFrom(w, events).grants
  {
    if events != [] {
      RunKept(w, events[..|events| - 1]);
      GrantsGrow(w, events[..|events| - 1]);
      StepGrants(RunFrom(w, events[..|events| - 1]), events[|events| - 1]);
    }
  }

  lemma {:induction false} RunSplits(w: Relay, before: seq<Event>, after: seq<Event>)
    ensures RunFrom(w, before + after) == RunFrom(RunFrom(w, before), after)
  {
    if after == [] {
      assert before + after == before;
    } else {
      RunSplits(w, before, after[..|after| - 1]);
      assert (before + after)[..|before + after| - 1] == before + after[..|after| - 1];
    }
  }

  /** Two slots a socket is ever seen in, however far apart in the run, are one slot of one registration. */
  lemma OneSlotForLife(before: seq<Event>, after: seq<Event>, ws: Socket, id: RoomId, role: Role, id': RoomId, role': Role)
    requires id in Run(before).rooms && Run(before).rooms[id].Slot(role) == Some(ws)
    requires id' in Run(before + after).rooms && Run(before + after).rooms[id'].Slot(role') == Some(ws)
    ensures id == id' && role == role'
    ensures Run(before).rooms[id].serial == Run(before + after).rooms[id'].serial
  {
    var w := Run(before);
    var w' := Run(before + after);
    RunKept(Empty, before);
    RunSplits(Empty, before, after);
    GrantsGrow(w, after);
    RunKept(w, after);
    var i :| 0 <= i < |w.grants| && GrantFor(w.grants[i], ws, id, w.rooms[id].serial, role);
    var j :| 0 <= j < |w'.grants| && GrantFor(w'.grants[j], ws, id', w'.rooms[id'].serial, role');
    assert w'.grants[i] == w.grants[i];
    assert i == j;
  }

  /**
   Every registered room has an occupant; a paired room has two different ones and a waiting room only its
   initiator; every occupant is an open socket that named this room and was told this slot's role.
   */
  lemma RoomsMeanWhatTheySay(events: seq<Event>, id: RoomId)
    requires id in Run(events).rooms
    ensures var room := Run(events).rooms[id];
      && (room.initiator.Some? || room.joiner.Some?)
      && (room.state == Paired ==> room.initiator.Some? && room.joiner.Some?)
      && (room.state == Waiting ==> room.initiator.Some? && room.joiner.None?)
      && (room.initiator.Some? ==> room.initiator != room.joiner)
    ensures forall role: Role, ws | Run(events).rooms[id].Slot(role) == Some(ws) ::
      && ws in Run(events).conns
      && Run(events).conns[ws].roomId == Some(id)
      && Run(events).conns[ws].role == Some(role)
  {
    RunKept(Empty, events);
    assert RoomOk(id, Run(events).rooms[id], Run(events).conns, Run(events).nextSerial);
  }

  /** No socket is ever acknowledged in two roles. */
  lemma AcksAgree(events: seq<Event>, i: nat, j: nat)
    requires i < |Run(events).sends| && j < |Run(events).sends|
    requires Run(events).sends[i].message.Ack? && Run(events).sends[j].message.Ack?
    requires Run(events).sends[i].to == Run(events).sends[j].to
    ensures Run(events).sends[i].message == Run(events).sends[j].message
  {
    var w := Run(events);
    RunKept(Empty, events);
    assert Acked(w.sends[i], w.grants) && Acked(w.sends[j], w.grants);
  }

  // ---- a room that has been paired ------------------------------------------------------------------------

  /** Registration `serial` exists or existed, and if a room still carries it, that room has been paired. */
  ghost predicate PairedOnce(w: Relay, serial: nat) {
    && serial < w.nextSerial
    && forall id | id in w.rooms :: w.rooms[id].serial == serial ==> w.rooms[id].wasPaired
  }

  /** Rooms only come from a CREATE, under a new serial; the others keep their serial and their pairing history. */
  ghost predicate RoomStep(w: Relay, w': Relay) {
    && w.nextSerial <= w'.nextSerial
    && forall id | id in w'.rooms ::
         || w'.rooms[id].serial == w.nextSerial
         || (id in w.rooms && w'.rooms[id].serial == w.rooms[id].serial &&
             (w.rooms[id].wasPaired ==> w'.rooms[id].wasPaired))
  }

  lemma StepRooms(w: Relay, ev: Event)
    ensures RoomStep(w, Step(w, ev))
  {
    hide SweepRooms, HandleHello, HandleForward, HandleClose;
    match ev
    case Open(_) =>
    case Hello(ws, _, _, _, _, _, _, _) =>
      if ws in w.conns {
        HelloRooms(w, ev);
      }
    case Forward(ws, _, _, _, _, _) =>
      if ws in w.conns {
        ForwardRooms(w, ev);
      }
    case Close(ws, _) =>
      if ws in w.conns {
        CloseRooms(w, ev);
      }
    case Sweep(order, now, graceMs) => SweepGrants(w, order, now, graceMs);
  }

  lemma HelloRooms(w: Relay, ev: Event)
    requires ev.Hello? && ev.ws in w.conns
    ensures RoomStep(w, Step(w, ev))
  {
  }

  lemma ForwardRooms(w: Relay, ev: Event)
    requires ev.Forward? && ev.ws in w.conns
    ensures RoomStep(w, Step(w, ev))
  {
    hide GetPeer;
  }

  lemma CloseRooms(w: Relay, ev: Event)
    requires ev.Close? && ev.ws in w.conns
    ensures RoomStep(w, Step(w, ev))
  {
  }

  lemma StepPairedOnce(w: Relay, ev: Event, serial: nat)
    requires Inv(w) && PairedOnce(w, serial)
    ensures PairedOnce(Step(w, ev), serial)
    ensures forall i | |w.grants| <= i < |Step(w, ev).grants| ::
      Step(w, ev).grants[i].serial == serial ==> Step(w, ev).grants[i].intent == Resume
  {
    StepRooms(w, ev);
    StepGrants(w, ev);
    hide Step;
    if Step(w, ev).grants != w.grants {
      var g :| NewGrant(w, ev, g) && Step(w, ev).grants == w.grants + [g];
      if g.serial == serial {
        assert RoomOk(g.roomId, w.rooms[g.roomId], w.conns, w.nextSerial);
      }
    }
  }

  /**
   From the moment a room is paired, and for as long as that registration lasts, only a resume HELLO is given a
   slot in it and the room is never waiting again.
   */
  lemma {:induction false} PairedRoomsAdmitOnlyResumes(w: Relay, events: seq<Event>, serial: nat)
    requires Inv(w) && PairedOnce(w, serial)
    ensures var w' := RunFrom(w, events);
      && PairedOnce(w', serial)
      && w.grants <= w'.grants
      && (forall i | |w.grants| <= i < |w'.grants| :: w'.grants[i].serial == serial ==> w'.grants[i].intent == Resume)
      && (forall id | id in w'.rooms :: w'.rooms[id].serial == serial ==> w'.rooms[id].state != Waiting)
  {
    RunKept(w, events);
    if events != [] {
      var mid := RunFrom(w, events[..|events| - 1]);
      RunKept(w, events[..|events| - 1]);
      PairedRoomsAdmitOnlyResumes(w, events[..|events| - 1], serial);
      StepPairedOnce(mid, events[|events| - 1], serial);
      StepGrants(mid, events[|events| - 1]);
      hide Step;
    }
  }

  /** The same, said of a whole run and the room seen paired in it; the role handed out is the vacated slot's. */
  lemma OncePairedOnlyResume(before: seq<Event>, after: seq<Event>, id: RoomId, ev: Event)
    requires id in Run(before).rooms && Run(before).rooms[id].state == Paired
    requires id in Run(before + after).rooms
    requires Run(before + after).rooms[id].serial == Run(before).rooms[id].serial
    ensures Run(before + after).rooms[id].state != Waiting
    ensures var w := Run(before + after);
      forall g | g in Step(w, ev).grants && g !in w.grants && g.roomId == id ::
        && ev.Hello? && ev.intent == Resume && ev.id == id && g.ws == ev.ws
        && w.rooms[id].Slot(g.role).None? && w.rooms[id].Slot(g.role.Peer()).Some?
  {
    var w := Run(before + after);
    RunKept(Empty, before);
    RunSplits(Empty, before, after);
    var start := Run(before);
    assert RoomOk(id, start.rooms[id], start.conns, start.nextSerial);
    PairedRoomsAdmitOnlyResumes(start, after, start.rooms[id].serial);
    RunKept(start, after);
    StepGrants(w, ev);
    StepPairedOnce(w, ev, start.rooms[id].serial);
    hide Step, Run, RunFrom;
    if Step(w, ev).grants != w.grants {
      var g :| NewGrant(w, ev, g) && Step(w, ev).grants == w.grants + [g];
      assert Step(w, ev).grants[|w.grants|] == g;
    }
  }

  // ---- where frames go --------------------------------------------------------------------------------------

  /** `s` is the frame of `ev`, unchanged, on its way to the one other occupant of the sender's room. */
  ghost predicate ForwardedAt(w: Relay, ev: Event, s: Sent) {
    && ev.Forward? && ev.ws in w.conns && s.message == Frame(ev.bytes)
    && w.conns[ev.ws].roomId.Some? && w.conns[ev.ws].roomId.value in w.rooms && w.conns[ev.ws].role.Some?
    && var room := w.rooms[w.conns[ev.ws].roomId.value];
       var role := w.conns[ev.ws].role.value;
       room.Slot(role) == Some(ev.ws) && room.Slot(role.Peer()) == Some(s.to) && s.to != ev.ws
  }

  ghost predicate SendStep(w: Relay, ev: Event, w': Relay) {
    && w.sends <= w'.sends
    && forall i | |w.sends| <= i < |w'.sends| :: w'.sends[i].message.Frame? ==> ForwardedAt(w, ev, w'.sends[i])
  }

  lemma {:induction false} SweepSends(w: Relay, order: seq<RoomId>, now: int, graceMs: int)
    ensures w.sends <= SweepRooms(w, order, now, graceMs).sends
    ensures forall i | |w.sends| <= i < |SweepRooms(w, order, now, graceMs).sends| ::
      SweepRooms(w, order, now, graceMs).sends[i].message == PeerLeft
  {
    if order != [] {
      SweepSends(w, order[..|order| - 1], now, graceMs);
    }
  }

  lemma ForwardSends(w: Relay, ev: Event)
    requires Inv(w) && ev.Forward? && ev.ws in w.conns
    ensures SendStep(w, ev, Step(w, ev))
  {
    hide SerialsOk, SerialsDistinct, HoldersOk, ConnsOk, GrantsOk, GrantsUnique, AcksOk;
    var data := w.conns[ev.ws];
    if data.roomId.Some? && data.roomId.value in w.rooms {
      assert RoomOk(data.roomId.value, w.rooms[data.roomId.value], w.conns, w.nextSerial);
    }
  }

  lemma StepSends(w: Relay, ev: Event)
    requires Inv(w)
    ensures SendStep(w, ev, Step(w, ev))
  {
    hide Inv;
    match ev
    case Forward(ws, bytes, kind, tokenOk, overflow, dropped) =>
      if ws in w.conns {
        ForwardSends(w, ev);
      }
    case Sweep(order, now, graceMs) => SweepSends(w, order, now, graceMs);
    case _ =>
  }

  /** Every frame the relay ever sent was some socket's frame, unchanged, to its co-occupant at that moment. */
  lemma {:induction false} FramesReachOnlyThePeer(events: seq<Event>, i: nat)
    requires i < |Run(events).sends| && Run(events).sends[i].message.Frame?
    ensures exists k :: 0 <= k < |events| && ForwardedAt(Run(events[..k]), events[k], Run(events).sends[i])
  {
    var n := |events| - 1;
    assert events != [];
    var mid := Run(events[..n]);
    RunKept(Empty, events[..n]);
    StepSends(mid, events[n]);
    if i < |mid.sends| {
      FramesReachOnlyThePeer(events[..n], i);
      var k :| 0 <= k < n && ForwardedAt(Run(events[..n][..k]), events[..n][k], mid.sends[i]);
      assert events[..n][..k] == events[..k];
    }
  }

  /**
   When a socket shares its room, its frame is relayed exactly when it is well sized, within the rate limit, not a
   second handshake, and the peer's socket takes it; the peer is then sent that frame and nobody anything else.
   */
  lemma ForwardIsExact(events: seq<Event>, ev: Event, id: RoomId, role: Role, peer: Socket)
    requires ev.Forward? && id in Run(events).rooms
    requires Run(events).rooms[id].Slot(role) == Some(ev.ws) && Run(events).rooms[id].Slot(role.Peer()) == Some(peer)
    ensures ev.ws in Run(events).conns
    ensures var w := Run(events);
      Step(w, ev).sends == w.sends + [Sent(peer, Frame(ev.bytes))] <==>
        && |ev.bytes| <= MAX_WIRE_BYTES
        && (ev.kind == HandshakeFrame ==> |ev.bytes| == HANDSHAKE_FRAME_LENGTH && w.conns[ev.ws].handshakeForwards == 0)
        && (ev.kind == RelayFrame ==> ev.tokenOk)
        && !ev.overflow && !ev.dropped
  {
    var w := Run(events);
    RunKept(Empty, events);
    assert RoomOk(id, w.rooms[id], w.conns, w.nextSerial);
    assert w.conns[ev.ws].state == PairedUp;
    assert GetPeer(w.rooms[id], ev.ws) == Some(peer);
    hide Run, RunFrom;
    var w' := Step(w, ev);
    assert w'.sends == w.sends + w'.sends[|w.sends|..];
  }

  // ---- half-open rooms --------------------------------------------------------------------------------------

  predicate OneOccupant(room: Room) {
    room.initiator.Some? != room.joiner.Some?
  }

  /** A close for a room in which the socket holds no slot: its own room is gone and the name was taken again. */
  predicate LateClose(w: Relay, ev: Event) {
    && ev.Close? && ev.ws in w.conns
    && w.conns[ev.ws].roomId.Some? && w.conns[ev.ws].roomId.value in w.rooms
    && !w.rooms[w.conns[ev.ws].roomId.value].Holds(ev.ws)
  }

  predicate FullHalfOpen(w: Relay, id: RoomId) {
    id in w.rooms && w.rooms[id].state == HalfOpen && w.rooms[id].initiator.Some? && w.rooms[id].joiner.Some?
  }

  /**
   Half-open does not mean one occupant: a socket whose CREATE was undone because its ACK was dropped still names the
   room; when others have created and paired it again, that socket's close marks it half open.
   */
  lemma HalfOpenCanBeFull()
    ensures exists events: seq<Event>, id :: FullHalfOpen(Run(events), id)
  {
    var id: RoomId := [];
    var start := [Open(0), Open(1), Open(2), Hello(0, id, Create, true, false, 0, true, false)];
    var again := [Hello(1, id, Create, true, false, 0, false, false), Hello(2, id, Join, true, false, 0, false, false)];
    RunStarts(id);
    var w := Run(start);
    var w1 := Step(w, again[0]);
    var w2 := Step(w1, again[1]);
    var w3 := Step(w2, Close(0, 0));
    var events := start + again + [Close(0, 0)];
    assert events[..6] == start + again && (start + again)[..5] == start + again[..1];
    assert (start + again[..1])[..4] == start;
    assert Run(start + again[..1]) == w1;
    assert Run(start + again) == w2;
    assert Run(events) == w3;
    assert w1.rooms[id].initiator == Some(1) && w1.rooms[id].state == Waiting;
    assert w2.rooms[id].joiner == Some(2) && w2.conns[0].roomId == Some(id);
    assert FullHalfOpen(Run(events), id);
  }

  lemma RunStarts(id: RoomId)
    ensures
      var w := Run([Open(0), Open(1), Open(2), Hello(0, id, Create, true, false, 0, true, false)]);
      && w.rooms == map[]
      && 0 in w.conns && w.conns[0].roomId == Some(id)
      && 1 in w.conns && w.conns[1].state == PendingHello
      && 2 in w.conns && w.conns[2].state == PendingHello
  {
    var h: Event := Hello(0, id, Create, true, false, 0, true, false);
    assert [Open(0), Open(1), Open(2), h][..3] == [Open(0), Open(1), Open(2)];
    assert [Open(0), Open(1), Open(2)][..2] == [Open(0), Open(1)];
    assert [Open(0), Open(1)][..1] == [Open(0)];
    assert [Open(0)][..0] == [];
    assert Run([]) == Empty;
    assert Run([Open(0)]) == Step(Empty, Open(0));
    assert Run([Open(0), Open(1)]) == Step(Run([Open(0)]), Open(1));
    assert Run([Open(0), Open(1), Open(2)]) == Step(Run([Open(0), Open(1)]), Open(2));
  }

  ghost predicate HalfOpensSingle(rooms: map<RoomId, Room>) {
    forall id | id in rooms :: rooms[id].state == HalfOpen ==> OneOccupant(rooms[id])
  }

  lemma CloseSingle(w: Relay, ev: Event)
    requires Inv(w) && ev.Close? && ev.ws in w.conns && !LateClose(w, ev) && HalfOpensSingle(w.rooms)
    ensures HalfOpensSingle(Step(w, ev).rooms)
  {
    var roomId := w.conns[ev.ws].roomId;
    if roomId.Some? && roomId.value in w.rooms {
      assert RoomOk(roomId.value, w.rooms[roomId.value], w.conns, w.nextSerial);
    }
  }

  lemma StepSingle(w: Relay, ev: Event)
    requires Inv(w) && !LateClose(w, ev) && HalfOpensSingle(w.rooms)
    ensures HalfOpensSingle(Step(w, ev).rooms)
  {
    hide Inv;
    match ev
    case Close(ws, now) =>
      if ws in w.conns {
        CloseSingle(w, ev);
      }
    case Hello(ws, id, _, _, _, now, _, _) =>
      if ws in w.conns && w.conns[ws].state == PendingHello && id in w.rooms && HasFreeSlot(w.rooms[id]) {
        EnterSeats(w, ws, id, now);
      }
    case Sweep(order, now, graceMs) => SweepGrants(w, order, now, graceMs);
    case _ =>
  }

  /** As long as no late close happens, a half-open room has exactly one occupant. */
  lemma {:induction false} HalfOpenIsSingleWithoutLateCloses(events: seq<Event>)
    requires forall k | 0 <= k < |events| :: !LateClose(Run(events[..k]), events[k])
    ensures HalfOpensSingle(Run(events).rooms)
  {
    if events != [] {
      var n := |events| - 1;
      forall k | 0 <= k < n
        ensures !LateClose(Run(events[..n][..k]), events[..n][k])
      {
        assert events[..n][..k] == events[..k];
      }
      HalfOpenIsSingleWithoutLateCloses(events[..n]);
      RunKept(Empty, events[..n]);
      StepSingle(Run(events[..n]), events[n]);
    }
  }

  /** And for one close of a full room it is exactly that: one occupant is left if and only if the close is not late. */
  lemma CloseLeavesOneIffNotLate(events: seq<Event>, ev: Event, id: RoomId)
    requires ev.Close? && ev.ws in Run(events).conns && Run(events).conns[ev.ws].roomId == Some(id)
    requires id in Run(events).rooms && !OneOccupant(Run(events).rooms[id])
    ensures id in Step(Run(events), ev).rooms && Step(Run(events), ev).rooms[id].state == HalfOpen
    ensures OneOccupant(Step(Run(events), ev).rooms[id]) <==> !LateClose(Run(events), ev)
  {
    var w := Run(events);
    RunKept(Empty, events);
    assert RoomOk(id, w.rooms[id], w.conns, w.nextSerial);
  }

  // ---- the sweep --------------------------------------------------------------------------------------------

  /** A sweep over a listing of the registry leaves exactly the rooms that have not expired. */
  lemma {:induction false} SweepIsExact(w: Relay, order: seq<RoomId>, now: int, graceMs: int)
    ensures var rooms := SweepRooms(w, order, now, graceMs).rooms;
      forall id ::
        && (id in rooms <==> id in w.rooms && !(id in order && Expired(w.rooms[id], now, graceMs)))
        && (id in rooms ==> rooms[id] == w.rooms[id])
  {
    if order != [] {
      var n := |order| - 1;
      SweepIsExact(w, order[..n], now, graceMs);
      assert forall id :: id in order <==> id in order[..n] || id == order[n];
    }
  }
}
