/**
 The grace period: how long a room is kept for an occupant that has gone, who may come back, and when it ends.
 Everything is said of runs, without the handlers' own bookkeeping.
 */
module RelayGrace {
  import opened Bytes
  import opened Nonce
  import opened RelayRooms
  import opened RelaySafety
  import opened Wire

  /** The sockets whose HELLO named the room. */
  ghost predicate Named(w: Relay, ws: Socket, id: RoomId) {
    ws in w.conns && w.conns[ws].roomId == Some(id)
  }

  /** `events` name the room in no HELLO and close no socket that had named it. */
  ghost predicate LeavesAlone(w: Relay, events: seq<Event>, id: RoomId) {
    forall ev | ev in events ::
      && (ev.Hello? ==> ev.id != id)
      && (ev.Close? ==> !Named(w, ev.ws, id))
  }

  /** Some sweep over a listing with the room comes `graceMs` or more after `since`. */
  ghost predicate SweptLate(events: seq<Event>, id: RoomId, since: int) {
    exists k :: 0 <= k < |events| && events[k].Sweep? && id in events[k].order
                && events[k].now - since >= events[k].graceMs
  }

  ghost predicate SweptAfterWait(events: seq<Event>, id: RoomId, since: int) {
    exists k :: 0 <= k < |events| && events[k].Sweep? && id in events[k].order
                && events[k].now - since > INITIATOR_WAIT_TIMEOUT_MS
  }

  // ---- one step ---------------------------------------------------------------------------------------------

  /** A step that leaves the room alone keeps who named it. */
  ghost predicate NamedKept(w: Relay, w': Relay, id: RoomId) {
    forall ws | Named(w', ws, id) :: Named(w, ws, id)
  }

  lemma AloneNamed(w: Relay, ev: Event, id: RoomId)
    requires ev.Hello? ==> ev.id != id
    ensures NamedKept(w, Step(w, ev), id)
  {
    hide SweepRooms;
    match ev
    case Sweep(order, now, graceMs) => SweepConns(w, order, now, graceMs);
    case Hello(_, _, _, _, _, _, _, _) => HelloNamed(w, ev, id);
    case _ =>
  }

  lemma HelloNamed(w: Relay, ev: Event, id: RoomId)
    requires ev.Hello? && ev.id != id
    ensures NamedKept(w, Step(w, ev), id)
  {
  }

  lemma {:induction false} SweepConns(w: Relay, order: seq<RoomId>, now: int, graceMs: int)
    ensures SweepRooms(w, order, now, graceMs).conns == w.conns
  {
    if order != [] {
      SweepConns(w, order[..|order| - 1], now, graceMs);
    }
  }

  /** A room with a free slot, left alone, is changed by nothing but a sweep. */
  lemma AloneKeepsRoom(w: Relay, ev: Event, id: RoomId)
    requires Inv(w) && id in w.rooms && HasFreeSlot(w.rooms[id])
    requires ev.Hello? ==> ev.id != id
    requires ev.Close? ==> !Named(w, ev.ws, id)
    requires !ev.Sweep?
    ensures id in Step(w, ev).rooms && Step(w, ev).rooms[id] == w.rooms[id]
  {
    hide Inv;
    match ev
    case Open(_) =>
    case Hello(_, _, _, _, _, _, _, _) => HelloKeepsRoom(w, ev, id);
    case Forward(_, _, _, _, _, _) => ForwardKeepsRoom(w, ev, id);
    case Close(_, _) =>
  }

  lemma HelloKeepsRoom(w: Relay, ev: Event, id: RoomId)
    requires id in w.rooms && ev.Hello? && ev.id != id
    ensures id in Step(w, ev).rooms && Step(w, ev).rooms[id] == w.rooms[id]
  {
  }

  /** In a room with one occupant nobody has a peer to send to. */
  lemma ForwardKeepsRoom(w: Relay, ev: Event, id: RoomId)
    requires id in w.rooms && HasFreeSlot(w.rooms[id]) && ev.Forward?
    ensures id in Step(w, ev).rooms && Step(w, ev).rooms[id] == w.rooms[id]
  {
  }

  lemma AbsentStays(w: Relay, ev: Event, id: RoomId)
    requires id !in w.rooms && (ev.Hello? ==> ev.id != id)
    ensures id !in Step(w, ev).rooms
  {
    hide SweepRooms;
    match ev
    case Sweep(order, now, graceMs) => SweepIsExact(w, order, now, graceMs);
    case Hello(_, _, _, _, _, _, _, _) => HelloAddsOnly(w, ev, id);
    case _ =>
  }

  lemma HelloAddsOnly(w: Relay, ev: Event, id: RoomId)
    requires id !in w.rooms && ev.Hello? && ev.id != id
    ensures id !in Step(w, ev).rooms
  {
  }

  // ---- a room left alone ------------------------------------------------------------------------------------

  /** A sweep over a listing with the room finds it expired. */
  ghost predicate Reaped(events: seq<Event>, id: RoomId, room: Room) {
    exists k :: 0 <= k < |events| && events[k].Sweep? && id in events[k].order
                && Expired(room, events[k].now, events[k].graceMs)
  }

  lemma ReapedGrows(events: seq<Event>, id: RoomId, room: Room)
    requires events != []
    ensures var n := |events| - 1;
      Reaped(events, id, room) <==>
        || Reaped(events[..n], id, room)
        || (events[n].Sweep? && id in events[n].order && Expired(room, events[n].now, events[n].graceMs))
  {
    var n := |events| - 1;
    assert forall k | 0 <= k < n :: events[..n][k] == events[k];
    if Reaped(events[..n], id, room) {
      var k :| 0 <= k < n && events[..n][k].Sweep? && id in events[..n][k].order
               && Expired(room, events[..n][k].now, events[..n][k].graceMs);
      assert events[k].Sweep? && id in events[k].order && Expired(room, events[k].now, events[k].graceMs);
    }
  }

  /** A room left alone stays as it is until a sweep finds it expired, and then it is gone. */
  lemma {:induction false} LeftAlone(w: Relay, events: seq<Event>, id: RoomId)
    requires Inv(w) && id in w.rooms && HasFreeSlot(w.rooms[id]) && LeavesAlone(w, events, id)
    ensures NamedKept(w, RunFrom(w, events), id)
    ensures id in RunFrom(w, events).rooms <==> !Reaped(events, id, w.rooms[id])
    ensures id in RunFrom(w, events).rooms ==> RunFrom(w, events).rooms[id] == w.rooms[id]
  {
    if events != [] {
      hide Inv, Step, Reaped, Expired;
      var n := |events| - 1;
      var mid := RunFrom(w, events[..n]);
      LeftAlone(w, events[..n], id);
      RunKept(w, events[..n]);
      ReapedGrows(events, id, w.rooms[id]);
      assert events[n] in events;
      AloneNamed(mid, events[n], id);
      if id !in mid.rooms {
        AbsentStays(mid, events[n], id);
      } else if events[n].Sweep? {
        SweepStep(mid, events[n]);
        SweepIsExact(mid, events[n].order, events[n].now, events[n].graceMs);
      } else {
        AloneKeepsRoom(mid, events[n], id);
      }
    } else {
      assert !Reaped(events, id, w.rooms[id]);
    }
  }

  lemma SweepStep(w: Relay, ev: Event)
    requires ev.Sweep?
    ensures Step(w, ev) == SweepRooms(w, ev.order, ev.now, ev.graceMs)
  {
  }

  // ---- after a close ----------------------------------------------------------------------------------------

  /** Both occupants are there and `ws` is the one in slot `role`. */
  ghost predicate Shared(w: Relay, id: RoomId, role: Role, ws: Socket) {
    && id in w.rooms
    && w.rooms[id].Slot(role) == Some(ws)
    && w.rooms[id].Slot(role.Peer()).Some?
  }

  /** The room after an occupant of it has closed: the other one alone, waiting since then. */
  lemma CloseLeavesHalf(w: Relay, id: RoomId, role: Role, ws: Socket, t: int)
    requires Inv(w) && Shared(w, id, role, ws)
    ensures var w' := Step(w, Close(ws, t));
      && id in w'.rooms
      && w'.rooms[id].Slot(role).None? && w'.rooms[id].Slot(role.Peer()) == w.rooms[id].Slot(role.Peer())
      && w'.rooms[id].state == HalfOpen && w'.rooms[id].serial == w.rooms[id].serial
      && forall now, graceMs :: Expired(w'.rooms[id], now, graceMs) <==> now - t >= graceMs
  {
    assert RoomOk(id, w.rooms[id], w.conns, w.nextSerial);
    assert SlotOk(w.rooms[id].Slot(role), role, id, w.conns);
  }

  /** The room is there for the one that left: the other occupant alone in it, the slot free. */
  ghost predicate KeptFor(w: Relay, w': Relay, id: RoomId, role: Role)
    requires id in w.rooms
  {
    && id in w'.rooms && w'.rooms[id].serial == w.rooms[id].serial
    && w'.rooms[id].Slot(role).None? && w'.rooms[id].Slot(role.Peer()) == w.rooms[id].Slot(role.Peer())
  }

  /** The run up to the moment an occupant's socket closes at `t`. */
  function Closing(before: seq<Event>, ws: Socket, t: int): seq<Event> {
    before + [Close(ws, t)]
  }

  lemma ClosingRuns(before: seq<Event>, ws: Socket, t: int, after: seq<Event>)
    ensures Run(Closing(before, ws, t)) == Step(Run(before), Close(ws, t))
    ensures Run(Closing(before, ws, t) + after) == RunFrom(Run(Closing(before, ws, t)), after)
    ensures Inv(Run(before)) && Inv(Run(Closing(before, ws, t))) && Inv(Run(Closing(before, ws, t) + after))
  {
    hide Inv, Step;
    var c := Closing(before, ws, t);
    assert c[..|c| - 1] == before;
    RunSplits(Empty, c, after);
    RunKept(Empty, before);
    RunKept(Empty, c);
    RunKept(Empty, c + after);
  }

  /**
   When an occupant of a shared room closes at `t` and the room is then left alone, it is kept for that occupant
   exactly until a sweep that lists it comes its grace period or more after `t`; before that the slot stays free
   and the other occupant stays in its own.
   */
  lemma GraceIsExact(before: seq<Event>, id: RoomId, role: Role, ws: Socket, t: int, after: seq<Event>)
    requires Shared(Run(before), id, role, ws)
    requires LeavesAlone(Run(Closing(before, ws, t)), after, id)
    ensures id in Run(Closing(before, ws, t) + after).rooms <==> !SweptLate(after, id, t)
    ensures !SweptLate(after, id, t) ==> KeptFor(Run(before), Run(Closing(before, ws, t) + after), id, role)
  {
    hide Inv, Step, Expired, Run, Named;
    ClosingRuns(before, ws, t, after);
    CloseLeavesHalf(Run(before), id, role, ws, t);
    var w := Run(Closing(before, ws, t));
    assert HasFreeSlot(w.rooms[id]) by {
      assert role == Initiator || role == Joiner;
    }
    LeftAlone(w, after, id);
    assert Reaped(after, id, w.rooms[id]) <==> SweptLate(after, id, t);
  }

  /** The other occupant is told at once that its peer is gone, and nobody is told anything else. */
  lemma ACloseIsTold(before: seq<Event>, id: RoomId, role: Role, ws: Socket, t: int)
    requires Shared(Run(before), id, role, ws)
    ensures var w, w' := Run(before), Run(Closing(before, ws, t));
      w'.sends == w.sends + [Sent(w.rooms[id].Slot(role.Peer()).value, PeerDisconnected)]
  {
    RunKept(Empty, before);
    ClosingRuns(before, ws, t, []);
    hide Run;
    var w := Run(before);
    assert RoomOk(id, w.rooms[id], w.conns, w.nextSerial);
    hide Inv;
    TellsTheOther(w, id, role, ws, t);
  }

  lemma TellsTheOther(w: Relay, id: RoomId, role: Role, ws: Socket, t: int)
    requires Shared(w, id, role, ws) && RoomOk(id, w.rooms[id], w.conns, w.nextSerial)
    ensures Step(w, Close(ws, t)).sends == w.sends + [Sent(w.rooms[id].Slot(role.Peer()).value, PeerDisconnected)]
  {
    assert role == Initiator || role == Joiner;
  }

  /** What a resume HELLO on a fresh socket gets: the vacated slot and its role; the other is told its peer is back. */
  ghost predicate TakenBack(w: Relay, w': Relay, id: RoomId, role: Role, ws: Socket) {
    && id in w.rooms && id in w'.rooms
    && w'.rooms[id].Slot(role) == Some(ws)
    && w'.rooms[id].Slot(role.Peer()) == w.rooms[id].Slot(role.Peer())
    && w'.rooms[id].state == Paired && w'.rooms[id].serial == w.rooms[id].serial
    && w.rooms[id].Slot(role.Peer()).Some?
    && w'.sends == w.sends + [Sent(ws, Ack(role)), Sent(w.rooms[id].Slot(role.Peer()).value, PeerJoined)]
  }

  /**
   As long as the room is kept, a resume HELLO on a fresh socket (of this version, within the rate limit, both
   messages taken by their sockets) is acknowledged with the role of the slot that was vacated.
   */
  lemma ResumeTakesTheSlotBack(before: seq<Event>, id: RoomId, role: Role, ws: Socket, t: int, after: seq<Event>,
                               newcomer: Socket, now: int)
    requires Shared(Run(before), id, role, ws)
    requires LeavesAlone(Run(Closing(before, ws, t)), after, id) && !SweptLate(after, id, t)
    requires var w := Run(Closing(before, ws, t) + after); newcomer in w.conns && w.conns[newcomer].state == PendingHello
    ensures var w := Run(Closing(before, ws, t) + after);
      TakenBack(w, Step(w, Hello(newcomer, id, Resume, true, false, now, false, false)), id, role, newcomer)
  {
    GraceIsExact(before, id, role, ws, t, after);
    ClosingRuns(before, ws, t, after);
    hide Run;
    TakesBack(Run(Closing(before, ws, t) + after), id, role, newcomer, now);
  }

  lemma TakesBack(w: Relay, id: RoomId, role: Role, newcomer: Socket, now: int)
    requires Inv(w) && id in w.rooms && w.rooms[id].Slot(role).None?
    requires newcomer in w.conns && w.conns[newcomer].state == PendingHello
    ensures TakenBack(w, Step(w, Hello(newcomer, id, Resume, true, false, now, false, false)), id, role, newcomer)
  {
    assert RoomOk(id, w.rooms[id], w.conns, w.nextSerial);
    assert ConnOk(newcomer, w.conns[newcomer], w.grants);
    assert role == Initiator || role == Joiner;
    assert w.rooms[id].Slot(role.Peer()).Some?;
    assert SlotOk(w.rooms[id].Slot(role.Peer()), role.Peer(), id, w.conns);
    var w' := Step(w, Hello(newcomer, id, Resume, true, false, now, false, false));
    assert w'.sends == w.sends + [Sent(newcomer, Ack(role))] + [Sent(w.rooms[id].Slot(role.Peer()).value, PeerJoined)];
  }

  /** A sweep that lists the room its grace period or more after `t` deletes it and tells the other occupant so. */
  lemma GraceEnds(before: seq<Event>, id: RoomId, role: Role, ws: Socket, t: int, after: seq<Event>,
                  order: seq<RoomId>, at: int, graceMs: int)
    requires Shared(Run(before), id, role, ws)
    requires LeavesAlone(Run(Closing(before, ws, t)), after, id) && !SweptLate(after, id, t)
    requires id in order && at - t >= graceMs
    ensures var w := Run(Closing(before, ws, t) + after);
      var w' := Step(w, Sweep(order, at, graceMs));
      && id !in w'.rooms && w.sends <= w'.sends
      && Sent(Run(before).rooms[id].Slot(role.Peer()).value, PeerLeft) in w'.sends[|w.sends|..]
  {
    hide Inv, Step, Expired, Run, Named;
    ClosingRuns(before, ws, t, after);
    CloseLeavesHalf(Run(before), id, role, ws, t);
    var start := Run(Closing(before, ws, t));
    assert HasFreeSlot(start.rooms[id]) by {
      assert role == Initiator || role == Joiner;
    }
    LeftAlone(start, after, id);
    assert Reaped(after, id, start.rooms[id]) <==> SweptLate(after, id, t);
    var w := Run(Closing(before, ws, t) + after);
    SweepStep(w, Sweep(order, at, graceMs));
    SweepIsExact(w, order, at, graceMs);
    SweepTells(w, order, at, graceMs, id);
    OtherOccupant(start.rooms[id], role);
  }

  lemma OtherOccupant(room: Room, role: Role)
    requires room.Slot(role).None?
    ensures Remaining(room) == room.Slot(role.Peer())
  {
    assert role == Initiator || role == Joiner;
  }

  /** A half-open room that a sweep deletes has its occupant told. */
  lemma {:induction false} SweepTells(w: Relay, order: seq<RoomId>, now: int, graceMs: int, id: RoomId)
    requires id in order && id in w.rooms && w.rooms[id].state == HalfOpen && Expired(w.rooms[id], now, graceMs)
    requires Remaining(w.rooms[id]).Some?
    ensures w.sends <= SweepRooms(w, order, now, graceMs).sends
    ensures Sent(Remaining(w.rooms[id]).value, PeerLeft) in SweepRooms(w, order, now, graceMs).sends[|w.sends|..]
  {
    hide Remaining, Expired;
    var n := |order| - 1;
    SweepSends(w, order, now, graceMs);
    SweepSends(w, order[..n], now, graceMs);
    SweepIsExact(w, order[..n], now, graceMs);
    var mid := SweepRooms(w, order[..n], now, graceMs);
    var told := Sent(Remaining(w.rooms[id]).value, PeerLeft);
    if id in order[..n] {
      SweepTells(w, order[..n], now, graceMs, id);
      var i :| 0 <= i < |mid.sends[|w.sends|..]| && mid.sends[|w.sends|..][i] == told;
      assert SweepRooms(w, order, now, graceMs).sends[|w.sends|..][i] == told;
    } else {
      assert order[n] == id && id in mid.rooms;
      assert SweepRooms(w, order, now, graceMs).sends == mid.sends + [told];
      assert SweepRooms(w, order, now, graceMs).sends[|w.sends|..][|mid.sends| - |w.sends|] == told;
    }
  }

  // ---- after a create ---------------------------------------------------------------------------------------

  /**
   A room created at `t` and then left alone is kept for its peer exactly until a sweep that lists it comes more
   than five minutes after `t`.
   */
  lemma WaitIsExact(before: seq<Event>, id: RoomId, ws: Socket, t: int, after: seq<Event>)
    requires id !in Run(before).rooms && ws in Run(before).conns && Run(before).conns[ws].state == PendingHello
    requires LeavesAlone(Run(before + [Hello(ws, id, Create, true, false, t, false, false)]), after, id)
    ensures var w := Run(before + [Hello(ws, id, Create, true, false, t, false, false)] + after);
      && (id in w.rooms <==> !SweptAfterWait(after, id, t))
      && (id in w.rooms ==> w.rooms[id].initiator == Some(ws) && w.rooms[id].joiner == None)
  {
    var h: Event := Hello(ws, id, Create, true, false, t, false, false);
    var w := Run(before + [h]);
    assert (before + [h])[..|before|] == before;
    assert w == Step(Run(before), h);
    RunKept(Empty, before + [h]);
    RunSplits(Empty, before + [h], after);
    assert w.rooms[id].state == Waiting && w.rooms[id].createdAt == t && HasFreeSlot(w.rooms[id]);
    LeftAlone(w, after, id);
    assert forall now, graceMs :: Expired(w.rooms[id], now, graceMs) <==> now - t > INITIATOR_WAIT_TIMEOUT_MS;
    hide Expired, Inv, Run;
    assert Reaped(after, id, w.rooms[id]) <==> SweptAfterWait(after, id, t);
  }

  /** A paired room is ended by no sweep, however late. */
  lemma PairedOutlivesSweeps(events: seq<Event>, id: RoomId, order: seq<RoomId>, now: int, graceMs: int)
    requires id in Run(events).rooms && Run(events).rooms[id].state == Paired
    ensures id in Step(Run(events), Sweep(order, now, graceMs)).rooms
    ensures Step(Run(events), Sweep(order, now, graceMs)).rooms[id] == Run(events).rooms[id]
  {
    SweepStep(Run(events), Sweep(order, now, graceMs));
    SweepIsExact(Run(events), order, now, graceMs);
  }
}
