/**
 The relay: rooms with an initiator and a joiner slot, sockets, and the handlers that move them.  Outcomes the
 relay does not decide (rate limits, dropped sends, full buffers) are parameters of the events.

 A room also carries the serial number it was created under and whether it has ever been paired; `grants` lists
 every slot ever handed out and `sends` every message ever sent.  The handlers never read these.
 */
module RelayRooms {
  import opened Bytes
  import opened Nonce
  import opened Wire

  type RoomId = seq<Byte>
  type Socket = nat

  const MAX_HANDSHAKE_FORWARDS := 1
  const INITIATOR_WAIT_TIMEOUT_MS := 300_000

  datatype ConnectionState = PendingHello | WaitingForPeer | PairedUp

  datatype ConnectionData = ConnectionData(
    state: ConnectionState,
    roomId: Option<RoomId>,
    role: Option<Role>,
    handshakeForwards: nat)

  datatype RoomState = Waiting | Paired | HalfOpen

  datatype Room = Room(
    initiator: Option<Socket>,
    joiner: Option<Socket>,
    state: RoomState,
    createdAt: int,
    lastActivity: int,
    serial: nat,
    wasPaired: bool)
  {
    function Slot(r: Role): Option<Socket> {
      if r == Initiator then initiator else joiner
    }

    predicate Holds(ws: Socket) {
      initiator == Some(ws) || joiner == Some(ws)
    }
  }

  datatype Message =
    | Ack(role: Role)
    | PeerJoined
    | PeerDisconnected
    | PeerLeft
    | Error(code: ErrorCode)
    | Frame(bytes: seq<Byte>)

  datatype Sent = Sent(to: Socket, message: Message)

  datatype Grant = Grant(ws: Socket, roomId: RoomId, serial: nat, role: Role, intent: Intent)

  datatype Relay = Relay(
    rooms: map<RoomId, Room>,
    conns: map<Socket, ConnectionData>,
    gone: set<Socket>,
    nextSerial: nat,
    grants: seq<Grant>,
    sends: seq<Sent>)

  function Say(w: Relay, to: Socket, message: Message): Relay {
    w.(sends := w.sends + [Sent(to, message)])
  }

  // ---- the registry -------------------------------------------------------------------------------

  predicate HasFreeSlot(room: Room) {
    room.initiator.None? || room.joiner.None?
  }

  /** The slot a newcomer takes: the initiator's if it is free, else the joiner's. */
  function SlotFor(room: Room): Role {
    if room.initiator.None? then Initiator else Joiner
  }

  function AddPeer(room: Room, ws: Socket, now: int): Room
    requires HasFreeSlot(room)
  {
    if room.initiator.None? then
      room.(initiator := Some(ws), state := if room.joiner.None? then Waiting else Paired, lastActivity := now,
            wasPaired := room.wasPaired || room.joiner.Some?)
    else
      room.(joiner := Some(ws), state := Paired, lastActivity := now, wasPaired := true)
  }

  function GetPeer(room: Room, ws: Socket): Option<Socket> {
    if room.initiator == Some(ws) then room.joiner
    else if room.joiner == Some(ws) then room.initiator
    else None
  }

  /** The other occupant, looked up as the code does: initiator first. */
  function Remaining(room: Room): Option<Socket> {
    if room.initiator.Some? then room.initiator else room.joiner
  }

  function Vacated(room: Room, ws: Socket): Room {
    room.(initiator := if room.initiator == Some(ws) then None else room.initiator,
          joiner := if room.joiner == Some(ws) then None else room.joiner)
  }

  /** `remove`: an empty room is deleted; any other becomes half open, even if `ws` held no slot in it. */
  function RemovePeer(rooms: map<RoomId, Room>, id: RoomId, ws: Socket, now: int): map<RoomId, Room>
    requires id in rooms
  {
    var room := Vacated(rooms[id], ws);
    if room.initiator.None? && room.joiner.None? then rooms - {id}
    else rooms[id := room.(state := HalfOpen, lastActivity := now)]
  }

  // ---- the handlers ---------------------------------------------------------------------------------

  function HandleCreate(w: Relay, ws: Socket, id: RoomId, limited: bool, now: int, ackDropped: bool): Relay
    requires ws in w.conns
  {
    if limited then Say(w, ws, Error(RateLimited))
    else if id in w.rooms then Say(w, ws, Error(RoomAlreadyExists))
    else
      var room := Room(Some(ws), None, Waiting, now, now, w.nextSerial, false);
      var data := w.conns[ws].(roomId := Some(id), state := WaitingForPeer, role := Some(Initiator));
      var w' := Relay(if ackDropped then w.rooms else w.rooms[id := room], w.conns[ws := data], w.gone,
                      w.nextSerial + 1, w.grants + [Grant(ws, id, w.nextSerial, Initiator, Create)], w.sends);
      if ackDropped then w' else Say(w', ws, Ack(Initiator))
  }

  /** A newcomer takes the free slot; both sockets are marked paired. */
  function TakeSlot(w: Relay, ws: Socket, id: RoomId, intent: Intent, now: int): Relay
    requires ws in w.conns && id in w.rooms && HasFreeSlot(w.rooms[id])
  {
    var existing := w.rooms[id];
    var remaining := Remaining(existing);
    var role := SlotFor(existing);
    var conns := w.conns[ws := w.conns[ws].(roomId := Some(id), state := PairedUp, role := Some(role))];
    w.(rooms := w.rooms[id := AddPeer(existing, ws, now)],
       conns := if remaining.Some? && remaining.value in conns
                then conns[remaining.value := conns[remaining.value].(state := PairedUp)] else conns,
       grants := w.grants + [Grant(ws, id, existing.serial, role, intent)])
  }

  function Enter(w: Relay, ws: Socket, id: RoomId, intent: Intent, now: int, ackDropped: bool, joinedDropped: bool)
    : Relay
    requires ws in w.conns && id in w.rooms && HasFreeSlot(w.rooms[id])
  {
    var remaining := Remaining(w.rooms[id]);
    var role := SlotFor(w.rooms[id]);
    var seated := TakeSlot(w, ws, id, intent, now);
    if ackDropped then seated.(rooms := seated.rooms - {id})
    else
      var acked := Say(seated, ws, Ack(role));
      if remaining.None? || remaining == Some(ws) then acked
      else if joinedDropped then acked.(rooms := acked.rooms - {id})
      else Say(acked, remaining.value, PeerJoined)
  }

  function HandleJoinOrResume(w: Relay, ws: Socket, id: RoomId, intent: Intent, limited: bool, now: int,
                              ackDropped: bool, joinedDropped: bool): Relay
    requires ws in w.conns
  {
    if limited then Say(w, ws, Error(RateLimited))
    else if id !in w.rooms then Say(w, ws, Error(RoomNotFound))
    else if w.rooms[id].state == HalfOpen && intent != Resume then Say(w, ws, Error(RoomFull))
    else if !HasFreeSlot(w.rooms[id]) then Say(w, ws, Error(RoomFull))
    else Enter(w, ws, id, intent, now, ackDropped, joinedDropped)
  }

  function HandleHello(w: Relay, ws: Socket, id: RoomId, intent: Intent, versionOk: bool, limited: bool, now: int,
                       ackDropped: bool, joinedDropped: bool): Relay
    requires ws in w.conns
  {
    if w.conns[ws].state != PendingHello then Say(w, ws, Error(BadState))
    else if !versionOk then Say(w, ws, Error(UnsupportedVersion))
    else if intent == Create then HandleCreate(w, ws, id, limited, now, ackDropped)
    else HandleJoinOrResume(w, ws, id, intent, limited, now, ackDropped, joinedDropped)
  }

  datatype FrameType = HandshakeFrame | RelayFrame

  function HandleForward(w: Relay, ws: Socket, bytes: seq<Byte>, kind: FrameType, tokenOk: bool, overflow: bool,
                         dropped: bool): Relay
    requires ws in w.conns
  {
    var data := w.conns[ws];
    if data.state != PairedUp then Say(w, ws, Error(BadState))
    else if |bytes| > MAX_WIRE_BYTES then Say(w, ws, Error(MessageTooLarge))
    else if kind == HandshakeFrame && |bytes| != HANDSHAKE_FRAME_LENGTH then Say(w, ws, Error(InvalidPayload))
    else if kind == RelayFrame && !tokenOk then Say(w, ws, Error(RateLimited))
    else if data.roomId.None? || data.roomId.value !in w.rooms then Say(w, ws, Error(RoomNotFound))
    else
      var id := data.roomId.value;
      var room := w.rooms[id];
      var peer := GetPeer(room, ws);
      if peer.None? then
        if room.state == HalfOpen then
          if kind == HandshakeFrame && !tokenOk then Say(w, ws, Error(RateLimited)) else w
        else Say(w, ws, Error(Internal))
      else if kind == HandshakeFrame && data.handshakeForwards >= MAX_HANDSHAKE_FORWARDS then
        Say(w, ws, Error(BadState))
      else
        var w' := if kind == HandshakeFrame
                  then w.(conns := w.conns[ws := data.(handshakeForwards := data.handshakeForwards + 1)]) else w;
        if overflow then w'.(rooms := w.rooms - {id})
        else if dropped then Say(Say(w', ws, Error(Internal)), peer.value, Error(Internal)).(rooms := w.rooms - {id})
        else Say(w', peer.value, Frame(bytes))
  }

  function HandleClose(w: Relay, ws: Socket, now: int): Relay
    requires ws in w.conns
  {
    var roomId := w.conns[ws].roomId;
    var w' := w.(conns := w.conns - {ws}, gone := w.gone + {ws});
    if roomId.None? || roomId.value !in w.rooms then w'
    else
      var id := roomId.value;
      var rooms := RemovePeer(w.rooms, id, ws, now);
      var w'' := w'.(rooms := rooms);
      if id !in rooms then w''
      else
        var remaining := Remaining(rooms[id]);
        if remaining.Some? && remaining != Some(ws) then Say(w'', remaining.value, PeerDisconnected) else w''
  }

  predicate Expired(room: Room, now: int, graceMs: int) {
    || (room.state == Waiting && now - room.createdAt > INITIATOR_WAIT_TIMEOUT_MS)
    || (room.state == HalfOpen && now - room.lastActivity >= graceMs)
  }

  /** One turn of the sweep: an expired room is deleted; a half-open one also tells its occupant the peer left. */
  function SweepOne(w: Relay, id: RoomId, now: int, graceMs: int): Relay {
    if id !in w.rooms || !Expired(w.rooms[id], now, graceMs) then w
    else
      var room := w.rooms[id];
      var w' := w.(rooms := w.rooms - {id});
      if room.state == HalfOpen && Remaining(room).Some? then Say(w', Remaining(room).value, PeerLeft) else w'
  }

  /** The sweep over a snapshot of the registry, in the order the snapshot lists the rooms. */
  function SweepRooms(w: Relay, order: seq<RoomId>, now: int, graceMs: int): Relay {
    if order == [] then w
    else SweepOne(SweepRooms(w, order[..|order| - 1], now, graceMs), order[|order| - 1], now, graceMs)
  }

  // ---- runs -------------------------------------------------------------------------------------------

  datatype Event =
    | Open(ws: Socket)
    | Hello(ws: Socket, id: RoomId, intent: Intent, versionOk: bool, limited: bool, now: int,
            ackDropped: bool, joinedDropped: bool)
    | Forward(ws: Socket, bytes: seq<Byte>, kind: FrameType, tokenOk: bool, overflow: bool, dropped: bool)
    | Close(ws: Socket, now: int)
    | Sweep(order: seq<RoomId>, now: int, graceMs: int)

  function Step(w: Relay, ev: Event): Relay {
    match ev
    case Open(ws) =>
      if ws in w.conns || ws in w.gone then w
      else w.(conns := w.conns[ws := ConnectionData(PendingHello, None, None, 0)])
    case Hello(ws, id, intent, versionOk, limited, now, ackDropped, joinedDropped) =>
      if ws !in w.conns then w
      else HandleHello(w, ws, id, intent, versionOk, limited, now, ackDropped, joinedDropped)
    case Forward(ws, bytes, kind, tokenOk, overflow, dropped) =>
      if ws !in w.conns then w else HandleForward(w, ws, bytes, kind, tokenOk, overflow, dropped)
    case Close(ws, now) => if ws !in w.conns then w else HandleClose(w, ws, now)
    case Sweep(order, now, graceMs) => SweepRooms(w, order, now, graceMs)
  }

  const Empty := Relay(map[], map[], {}, 0, [], [])

  function RunFrom(w: Relay, events: seq<Event>): Relay {
    if events == [] then w else Step(RunFrom(w, events[..|events| - 1]), events[|events| - 1])
  }

  function Run(events: seq<Event>): Relay {
    RunFrom(Empty, events)
  }
}
