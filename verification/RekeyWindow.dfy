/**
 One application frame queued without asking for the window.  On an in-order channel, with everything succeeding,
 some continuation of the ride ends a session if and only if the side was inside its window when it queued the frame.

 From inside the window the continuation is always the same: the side seals what it had queued and then the late
 frame, still under the old key, and from there on only its peer moves, until it has switched and the late frame is
 next.  The duo with the late frame follows the duo without it all the way.
 */
module RekeyWindow {
  import opened Bytes
  import opened Nonce
  import opened Wire
  import opened Channel
  import opened Session
  import opened RekeyFifo
  import opened RekeyRefinement
  import opened RekeyRides

  // ---- a slip ---------------------------------------------------------------------------------------

  /** What an application hands over: a text or a file chunk. */
  datatype AppFrame = AppFrame(kind: RelayKind, data: nat)

  predicate IsApp(a: AppFrame) {
    a.kind == Msg || a.kind == Chunk
  }

  function AppTask(a: AppFrame): Task {
    Task(a.kind, App(a.data), Done)
  }

  /** `r` queues an application frame, whether or not it is inside its window. */
  function Slip(l: Line, r: Role, a: AppFrame): Line {
    Line(Step(l.w, Event(r, Action.Enqueue(a.kind, a.data))), l.toJ, l.toI)
  }

  function WithTask(d: Duo, r: Role, t: Task): Duo {
    if r == Initiator then d.(i := d.i.(outbox := d.i.outbox + [t])) else d.(j := d.j.(outbox := d.j.outbox + [t]))
  }

  lemma SlipFollows(l: Line, r: Role, a: AppFrame)
    requires LineSound(l) && !SideAt(DuoOf(l), r).ended && IsApp(a)
    ensures LineSound(Slip(l, r, a))
    ensures DuoOf(Slip(l, r, a)) == WithTask(DuoOf(l), r, AppTask(a))
  {
    LineFacts(l);
    SlipIs(l, r, a);
    SlipAtOneEnd(l.w.At(r), a);
    hide EnqueueApp, EndFine, SideOf;
  }

  lemma SlipIs(l: Line, r: Role, a: AppFrame)
    requires BothLive(l)
    ensures Slip(l, r, a) == Line(l.w.Put(r, EnqueueApp(l.w.At(r), a.kind, a.data)), l.toJ, l.toI)
  {
    hide EnqueueApp;
  }

  lemma SlipAtOneEnd(e: Endpoint, a: AppFrame)
    requires EndFine(e) && !e.page.value.terminated && IsApp(a)
    ensures var e' := EnqueueApp(e, a.kind, a.data);
      EndFine(e') && SideOf(e') == SideOf(e).(outbox := SideOf(e).outbox + [AppTask(a)])
  {
  }

  /** Outside the window queueing a frame is a move of the ride. */
  lemma SlipOutside(l: Line, r: Role, a: AppFrame)
    requires LineSound(l) && IsApp(a) && !InWindow(SideOf(l.w.At(r)))
    ensures Slip(l, r, a) == Go(l, Move.Enqueue(r, a.kind, a.data))
  {
    LineFacts(l);
    hide SideOf;
  }

  /** The session of `who` has ended. */
  predicate HasEnded(l: Line, who: Role) {
    var e := l.w.At(who);
    Live(e) && e.page.value.terminated
  }

  /** After the ride `before`, `r` queues one frame; then the moves `after` end the session of `who`. */
  ghost predicate SlipEnds(before: seq<Move>, r: Role, a: AppFrame, after: seq<Move>, who: Role) {
    HasEnded(GoAll(Slip(Ride(before), r, a), after), who)
  }

  predicate QueuesNothing(moves: seq<Move>) {
    forall k | 0 <= k < |moves| :: !moves[k].Enqueue?
  }

  // ---- what the simulation needs of one side -----------------------------------------------------------

  function Rank(inbound: Inbound): nat {
    match inbound
    case Ready => 0
    case CommitPersist(_) => 1
    case CommitNext(_) => 2
    case AwaitAckSent => 3
    case InitiatorDerive(_) => 4
    case JoinerDerive(_) => 4
  }

  /** Counters left under the old key for what is queued, for an answer not yet queued, and for nothing else. */
  predicate Room(s: Side) {
    !s.key.rekeyed ==>
      s.committed + |s.outbox| + (if s.inbound.Ready? || s.inbound.JoinerDerive? then 1 else 0) <= MAX_COUNTER
  }

  function QueueTo(d: Duo, r: Role): seq<Frame> {
    if r == Initiator then d.toI else d.toJ
  }

  /** The facts about a clean duo that the phases give. */
  predicate Sane(d: Duo, r: Role) {
    var s := SideAt(d, r);
    && !s.ended && s.committed <= MAX_COUNTER
    && (s.inbound.CommitPersist? ==> s.localPrf && s.key.rekeyed)
    && (s.inbound.CommitNext? ==> s.inbound.key.rekeyed)
    && (s.inbound.AwaitAckSent? ==> s.outbox != [] && !s.key.rekeyed)
    && NextFits(d, r)
  }

  lemma PhasesAreSane(d: Duo, r: Role)
    requires InSomePhase(d)
    ensures Sane(d, r)
  {
    NextFrameFits(d, r);
    WritingIsPrf(d);
  }

  /** A side in its window with nothing queued: once its peer has taken everything, the peer has switched. */
  lemma PeerHasSwitched(d: Duo, r: Role)
    requires InSomePhase(d) && InWindow(SideAt(d, r)) && SideAt(d, r).outbox == []
    requires SideAt(d, r.Peer()).inbound == Ready && QueueTo(d, r.Peer()) == []
    ensures SideAt(d, r.Peer()).key.rekeyed && !SideAt(d, r).key.rekeyed
  {
  }

  // ---- the late frame is sealed under the old key ---------------------------------------------------------

  lemma SentKeepsWindow(r: Role, s: Side)
    requires s.outbox != []
    ensures InWindow(s) ==> InWindow(Sent(r, s))
    ensures Sent(r, s).outbox == s.outbox[1..] && Sent(r, s).committed == s.committed + 1
  {
  }

  /** With a task added at the end of its queue a side still sends the same head. */
  lemma SentUnderTask(r: Role, s: Side, t: Task)
    requires s.outbox != []
    ensures var s' := s.(outbox := s.outbox + [t]);
      && Sent(r, s') == Sent(r, s).(outbox := Sent(r, s).outbox + [t])
      && SentFrame(r, s') == SentFrame(r, s)
  {
    hide Continue;
    var s' := s.(outbox := s.outbox + [t]);
    var popped := s.(outbox := s.outbox[1..], committed := s.committed + 1);
    assert s'.(outbox := s'.outbox[1..], committed := s'.committed + 1) == popped.(outbox := popped.outbox + [t]) by {
      assert s'.outbox[1..] == s.outbox[1..] + [t];
    }
    assert s'.outbox[0] == s.outbox[0];
    ContinueUnderTask(r, popped, s.outbox[0].after, t);
  }

  lemma ContinueUnderTask(r: Role, s: Side, after: After, t: Task)
    ensures Continue(r, s.(outbox := s.outbox + [t]), after)
            == Continue(r, s, after).(outbox := Continue(r, s, after).outbox + [t])
  {
  }

  lemma DrainStep(d: Duo, r: Role, t: Task)
    requires Sane(d, r) && SideAt(d, r).outbox != [] && SideAt(d, r).committed < MAX_COUNTER
    ensures Smooth(WithTask(d, r, t), Send(r))
    ensures Play(WithTask(d, r, t), Send(r)) == WithTask(Play(d, Send(r)), r, t)
    ensures SideAt(Play(d, Send(r)), r) == Sent(r, SideAt(d, r))
    ensures SideAt(Play(d, Send(r)), r.Peer()) == SideAt(d, r.Peer())
  {
    hide Sent, SentFrame;
    SentUnderTask(r, SideAt(d, r), t);
  }

  /** The side seals what it had queued before the late frame; it stays inside its window. */
  lemma {:induction false} Drain(d: Duo, r: Role, t: Task) returns (moves: seq<Move>, d': Duo)
    requires InSomePhase(d) && InWindow(SideAt(d, r)) && Room(SideAt(d, r.Peer()))
    requires SideAt(d, r).committed + |SideAt(d, r).outbox| + 1 <= MAX_COUNTER
    ensures QueuesNothing(moves) && Leads(WithTask(d, r, t), moves, WithTask(d', r, t))
    ensures InSomePhase(d') && InWindow(SideAt(d', r)) && Room(SideAt(d', r.Peer()))
    ensures SideAt(d', r).outbox == [] && SideAt(d', r).committed < MAX_COUNTER
    decreases |SideAt(d, r).outbox|
  {
    hide InSomePhase, InWindow, Room, Leads, Play, WithTask, Sane, Sent, Smooth;
    moves, d' := [], d;
    if SideAt(d, r).outbox == [] {
      LeadsNone(WithTask(d, r, t));
    } else {
      PhasesAreSane(d, r);
      DrainStep(d, r, t);
      SentKeepsWindow(r, SideAt(d, r));
      PlayKept(d, Send(r));
      var more;
      more, d' := Drain(Play(d, Send(r)), r, t);
      LeadsOne(WithTask(d, r, t), Send(r));
      LeadsOn(WithTask(d, r, t), [Send(r)], WithTask(Play(d, Send(r)), r, t), more, WithTask(d', r, t));
      moves := [Send(r)] + more;
    }
  }

  /** `r` has sealed one frame more than in `d`, and it is on its way behind the others. */
  function Late(d: Duo, r: Role, f: Frame): Duo {
    if r == Initiator then d.(i := d.i.(committed := d.i.committed + 1), toJ := d.toJ + [f])
    else d.(j := d.j.(committed := d.j.committed + 1), toI := d.toI + [f])
  }

  function LateFrame(s: Side, r: Role, t: Task): Frame {
    Frame(s.key, r, s.committed + 1, t.kind, t.payload)
  }

  lemma SealsLate(d: Duo, r: Role, t: Task)
    requires Sane(d, r) && SideAt(d, r).outbox == [] && SideAt(d, r).committed < MAX_COUNTER && t.after == Done
    ensures Leads(WithTask(d, r, t), [Send(r)], Late(d, r, LateFrame(SideAt(d, r), r, t)))
  {
    hide Leads;
    assert ([] + [t])[1..] == [];
    assert Play(WithTask(d, r, t), Send(r)) == Late(d, r, LateFrame(SideAt(d, r), r, t));
    LeadsOne(WithTask(d, r, t), Send(r));
  }

  // ---- only the peer moves, until it has switched ---------------------------------------------------------

  function NextMove(s: Side, p: Role): Move {
    match s.inbound
    case Ready => Move.Deliver(p)
    case JoinerDerive(_) => Move.Derive(p)
    case InitiatorDerive(_) => Move.Derive(p)
    case AwaitAckSent => Send(p)
    case CommitNext(_) => Move.CommitSwitch(p, false)
    case CommitPersist(_) => Move.CommitWrite(p)
  }

  /** A move of the peer does not see the late frame behind the others. */
  lemma LateFollows(d: Duo, r: Role, f: Frame, m: Move)
    requires m.role == r.Peer() && (m.Deliver? ==> QueueTo(d, m.role) != [])
    ensures Play(Late(d, r, f), m) == Late(Play(d, m), r, f)
    ensures SideAt(Play(d, m), r) == SideAt(d, r)
    ensures Smooth(d, m) ==> Smooth(Late(d, r, f), m)
  {
    hide Alone, Take, Sent, SentFrame;
    var q := QueueTo(d, m.role);
    if m.Deliver? {
      assert (q + [f])[1..] == q[1..] + [f] && (q + [f])[0] == q[0];
    }
  }

  /** What is left for a side to do before it is ready with nothing on its way to it. */
  predicate Closer(d: Duo, d': Duo, p: Role) {
    var s, s' := SideAt(d, p), SideAt(d', p);
    || |QueueTo(d', p)| < |QueueTo(d, p)|
    || (QueueTo(d', p) == QueueTo(d, p)
        && (Rank(s'.inbound) < Rank(s.inbound)
            || (s'.inbound == s.inbound && |s'.outbox| < |s.outbox|)))
  }

  lemma TakeMakesRoom(p: Role, s: Side, f: Frame)
    requires Room(s) && s.inbound == Ready
    ensures Room(Take(p, s, f))
  {
    TakeKeepsQueue(p, s, f);
    hide Take;
  }

  predicate SameQueue(s: Side, s': Side) {
    s'.outbox == s.outbox && s'.committed == s.committed && s'.key == s.key
  }

  lemma TakeKeepsQueue(p: Role, s: Side, f: Frame)
    ensures SameQueue(s, Take(p, s, f))
  {
    hide StartRekey;
    if f.kind == ModeUpgraded {
      hide SameQueue;
      StartKeepsQueue(p, s.(recv := f.counter, peerPrf := true));
      QueueAside(s, f.counter, StartRekey(p, s.(recv := f.counter, peerPrf := true)));
      QueueAside(s, f.counter, s.(recv := f.counter, peerPrf := true));
    }
  }

  lemma QueueAside(s: Side, counter: nat, s': Side)
    ensures SameQueue(s, s.(recv := counter, peerPrf := true))
    ensures SameQueue(s.(recv := counter, peerPrf := true), s') ==> SameQueue(s, s')
  {
  }

  lemma StartKeepsQueue(p: Role, s: Side)
    ensures SameQueue(s, StartRekey(p, s))
  {
  }

  predicate Lower(s: Side, s': Side) {
    s'.ended || (Rank(s'.inbound) < Rank(s.inbound) && Room(s'))
  }

  lemma DeriveComesCloser(s: Side, next: nat)
    requires Room(s) && (s.inbound.JoinerDerive? || s.inbound.InitiatorDerive?)
    ensures Lower(s, DeriveSide(s, next).side)
  {
    hide Agree;
  }

  lemma CommitComesCloser(s: Side)
    requires s.inbound.CommitNext? ==> s.inbound.key.rekeyed
    requires s.inbound.CommitPersist? ==> s.key.rekeyed
    ensures s.inbound.CommitNext? ==> Lower(s, SwitchSide(s, false))
    ensures s.inbound.CommitPersist? ==> Lower(s, CommitDone(s))
  {
  }

  lemma AloneIs(p: Role, s: Side, next: nat)
    ensures Alone(p, s, Move.Derive(p), next).side == DeriveSide(s, next).side
    ensures Alone(p, s, Move.CommitSwitch(p, false), next).side == SwitchSide(s, false)
    ensures s.inbound.CommitPersist? ==> Alone(p, s, Move.CommitWrite(p), next).side == CommitDone(s)
  {
    hide DeriveSide, SwitchSide, CommitDone;
  }

  lemma AloneComesCloser(p: Role, s: Side, next: nat)
    requires Room(s) && !s.inbound.Ready? && !s.inbound.AwaitAckSent?
    requires s.inbound.CommitPersist? ==> s.key.rekeyed
    requires s.inbound.CommitNext? ==> s.inbound.key.rekeyed
    ensures Lower(s, Alone(p, s, NextMove(s, p), next).side)
  {
    hide Alone, DeriveSide, SwitchSide, CommitDone, Lower, Room;
    AloneIs(p, s, next);
    if s.inbound.JoinerDerive? || s.inbound.InitiatorDerive? {
      DeriveComesCloser(s, next);
    } else {
      CommitComesCloser(s);
    }
  }

  lemma SendComesCloser(p: Role, s: Side)
    requires Room(s) && s.inbound.AwaitAckSent? && s.outbox != []
    ensures var s' := Sent(p, s);
      Room(s') && (Rank(s'.inbound) < Rank(s.inbound) || (s'.inbound == s.inbound && |s'.outbox| < |s.outbox|))
  {
  }

  lemma StepDown(d: Duo, p: Role)
    requires Sane(d, p) && Room(SideAt(d, p)) && (SideAt(d, p).inbound == Ready ==> QueueTo(d, p) != [])
    ensures var m := NextMove(SideAt(d, p), p);
      && Smooth(d, m)
      && (SideAt(Play(d, m), p).ended || (Closer(d, Play(d, m), p) && Room(SideAt(Play(d, m), p))))
  {
    hide Alone, Take, Sent, SentFrame, Room, Rank;
    var s := SideAt(d, p);
    if s.inbound == Ready {
      TakeMakesRoom(p, s, QueueTo(d, p)[0]);
    } else if s.inbound.AwaitAckSent? {
      SendHasRoom(s);
      SendComesCloser(p, s);
    } else {
      AloneComesCloser(p, s, d.next);
    }
  }

  lemma SendHasRoom(s: Side)
    requires Room(s) && s.inbound.AwaitAckSent? && s.outbox != [] && !s.key.rekeyed
    ensures s.committed < MAX_COUNTER
  {
  }

  lemma {:induction false} Catch(d: Duo, r: Role, f: Frame) returns (moves: seq<Move>, d': Duo)
    requires InSomePhase(d) && Room(SideAt(d, r.Peer()))
    ensures QueuesNothing(moves) && Leads(Late(d, r, f), moves, Late(d', r, f))
    ensures InSomePhase(d') && SideAt(d', r) == SideAt(d, r)
    ensures SideAt(d', r.Peer()).inbound == Ready && QueueTo(d', r.Peer()) == []
    decreases |QueueTo(d, r.Peer())|, Rank(SideAt(d, r.Peer()).inbound), |SideAt(d, r.Peer()).outbox|
  {
    hide InSomePhase, Room, Leads, Play, Late, Sane, Smooth, NextMove;
    var p := r.Peer();
    moves, d' := [], d;
    if SideAt(d, p).inbound == Ready && QueueTo(d, p) == [] {
      LeadsNone(Late(d, r, f));
    } else {
      PhasesAreSane(d, p);
      StepDown(d, p);
      var m := NextMove(SideAt(d, p), p);
      NextMoveIs(SideAt(d, p), p);
      PlayKept(d, m);
      NotEnded(Play(d, m));
      LateFollows(d, r, f, m);
      var more;
      more, d' := Catch(Play(d, m), r, f);
      LeadsOne(Late(d, r, f), m);
      LeadsOn(Late(d, r, f), [m], Late(Play(d, m), r, f), more, Late(d', r, f));
      moves := [m] + more;
    }
  }

  lemma NextMoveIs(s: Side, p: Role)
    ensures var m := NextMove(s, p); m.role == p && !m.Enqueue? && (m.Deliver? ==> s.inbound == Ready)
  {
  }

  // ---- the receiver of the late frame ends its session ----------------------------------------------------

  lemma MisfitRefused(r: Role, e: Endpoint, log: seq<Frame>, f: Frame, n: nat)
    requires EndFine(e) && !e.page.value.terminated && e.page.value.inbound == Ready
    requires NonceOf(f).Some? && f.key != e.page.value.active.value.key
    ensures var e' := Act(r, e, Action.Deliver(f.kind, NonceOf(f).value, Sealed(f), true, true), log, n).e;
      Live(e') && e'.page.value.terminated
  {
    ValidateMeaning(log, r, e.page.value.active.value, f.kind, NonceOf(f).value, Sealed(f));
    hide Validate, Handle;
  }

  /** A frame sealed under another key than the receiver's ends the receiver's session. */
  lemma MisfitEnds(l: Line, r: Role)
    requires LineSound(l)
    requires var s := SideAt(DuoOf(l), r); !s.ended && s.inbound == Ready
    requires var q := l.Queue(r); q != [] && NonceOf(q[0]).Some? && q[0].key != SideAt(DuoOf(l), r).key
    ensures HasEnded(Go(l, Move.Deliver(r)), r)
  {
    hide Act, SideOf, MakeNonce;
    LineFacts(l);
    MisfitRefused(r, l.w.At(r), l.w.log, l.Queue(r)[0], l.w.nextPair);
  }

  /** From a line whose duo is one frame late, with everything before it taken, the delivery of that frame fails. */
  lemma LateEnds(l: Line, d: Duo, r: Role, f: Frame)
    requires LineSound(l) && DuoOf(l) == Late(d, r, f)
    requires InSomePhase(d) && SideAt(d, r.Peer()).inbound == Ready && QueueTo(d, r.Peer()) == []
    requires NonceOf(f).Some? && f.key != SideAt(d, r.Peer()).key
    ensures HasEnded(Go(l, Move.Deliver(r.Peer())), r.Peer())
  {
    NotEnded(d);
    hide InSomePhase, LineSound, SideOf, Go, HasEnded, MakeNonce;
    assert l.Queue(r.Peer()) == [f];
    MisfitEnds(l, r.Peer());
  }

  // ---- exactly the window ---------------------------------------------------------------------------------

  /** Each side can still seal what it has queued and one frame more. */
  predicate CountersLeft(d: Duo) {
    && d.i.committed + |d.i.outbox| + 1 <= MAX_COUNTER
    && d.j.committed + |d.j.outbox| + 1 <= MAX_COUNTER
  }

  /** On the duo: the moves that bring the late frame to the head of its queue, and where they lead. */
  lemma SlipLeads(d: Duo, r: Role, t: Task) returns (moves: seq<Move>, d': Duo, f: Frame)
    requires InSomePhase(d) && InWindow(SideAt(d, r)) && CountersLeft(d) && t.after == Done
    ensures QueuesNothing(moves) && Leads(WithTask(d, r, t), moves, Late(d', r, f))
    ensures InSomePhase(d') && SideAt(d', r.Peer()).inbound == Ready && QueueTo(d', r.Peer()) == []
    ensures NonceOf(f).Some? && f.key != SideAt(d', r.Peer()).key
  {
    hide InSomePhase, InWindow, Leads, Play, WithTask, Late, Sane;
    var drain, mid := Drain(d, r, t);
    PhasesAreSane(mid, r);
    SealsLate(mid, r, t);
    f := LateFrame(SideAt(mid, r), r, t);
    var catching;
    catching, d' := Catch(mid, r, f);
    WindowKept(mid, d', r);
    PeerHasSwitched(d', r);
    LeadsOn(WithTask(d, r, t), drain, WithTask(mid, r, t), [Send(r)], Late(mid, r, f));
    LeadsOn(WithTask(d, r, t), drain + [Send(r)], Late(mid, r, f), catching, Late(d', r, f));
    moves := drain + [Send(r)] + catching;
  }

  lemma WindowKept(d: Duo, d': Duo, r: Role)
    requires InWindow(SideAt(d, r)) && SideAt(d', r) == SideAt(d, r)
    ensures InWindow(SideAt(d', r))
  {
  }

  lemma InsideEnds(before: seq<Move>, r: Role, a: AppFrame) returns (after: seq<Move>)
    requires IsApp(a) && CountersLeft(DuoOf(Ride(before))) && InWindow(SideOf(Ride(before).w.At(r)))
    ensures QueuesNothing(after) && SlipEnds(before, r, a, after, r.Peer())
  {
    hide Ride, InSomePhase, InWindow, Leads, LineSound, DuoOf, SideOf, Slip, Go, GoAll, WithTask, Late, QueuesNothing;
    hide CountersLeft, HasEnded, BothLive, SideAt, Live, QueueTo;
    RideLives(before);
    var l := Ride(before);
    var d := DuoOf(l);
    SidesOf(l);
    BothGoOn(d, r);
    SlipFollows(l, r, a);
    var moves, d', f := SlipLeads(d, r, AppTask(a));
    LeadsSounds(Slip(l, r, a), moves, Late(d', r, f));
    var l' := GoAll(Slip(l, r, a), moves);
    LateEnds(l', d', r, f);
    LineLive(l');
    GoAllOn(Slip(l, r, a), moves, [Move.Deliver(r.Peer())]);
    GoAllOne(l', Move.Deliver(r.Peer()));
    after := moves + [Move.Deliver(r.Peer())];
    QueuesNoMore(moves, r.Peer());
  }

  lemma QueuesNoMore(moves: seq<Move>, p: Role)
    requires QueuesNothing(moves)
    ensures QueuesNothing(moves + [Move.Deliver(p)])
  {
  }

  lemma BothGoOn(d: Duo, r: Role)
    requires InSomePhase(d)
    ensures !SideAt(d, r).ended
  {
    NotEnded(d);
    hide InSomePhase;
  }

  lemma SidesOf(l: Line)
    requires LineSound(l)
    ensures BothLive(l) && forall r: Role :: Live(l.w.At(r)) && SideAt(DuoOf(l), r) == SideOf(l.w.At(r))
  {
    LineFacts(l);
    hide SideOf;
  }

  lemma LeadsSounds(l: Line, moves: seq<Move>, d: Duo)
    requires LineSound(l) && Leads(DuoOf(l), moves, d)
    ensures LineSound(GoAll(l, moves)) && DuoOf(GoAll(l, moves)) == d
  {
    hide LineSound, DuoOf, SmoothAll, PlayAll, GoAll;
    SmoothGoAll(l, moves);
  }

  lemma OutsideNeverEnds(before: seq<Move>, r: Role, a: AppFrame, after: seq<Move>, who: Role)
    requires IsApp(a) && !InWindow(SideOf(Ride(before).w.At(r)))
    ensures !SlipEnds(before, r, a, after, who)
  {
    var m := Move.Enqueue(r, a.kind, a.data);
    RideLives(before);
    hide Ride, InSomePhase, InWindow, LineSound, SideOf, Slip, Go, GoAll, BothLive;
    SlipOutside(Ride(before), r, a);
    RideUnfolds(before, m);
    RideOn(before + [m], after);
    RideLives(before + [m] + after);
    NotEnded(DuoOf(Ride(before + [m] + after)));
    LineFacts(Ride(before + [m] + after));
  }

  /** A slip and what follows it is a run of `Session`, in which `first` is the ride before it. */
  ghost predicate RunsTo(before: seq<Move>, r: Role, a: AppFrame, after: seq<Move>,
                         first: seq<Event>, events: seq<Event>)
  {
    && Run(first) == Ride(before).w
    && first + [Event(r, Action.Enqueue(a.kind, a.data))] <= events
    && Run(events) == GoAll(Slip(Ride(before), r, a), after).w
  }

  lemma SlipIsRun(before: seq<Move>, r: Role, a: AppFrame, after: seq<Move>)
    returns (first: seq<Event>, events: seq<Event>)
    ensures RunsTo(before, r, a, after, first, events)
  {
    hide GoAll, Step, Ride;
    first := RideIsRun(before);
    var slipped := first + [Event(r, Action.Enqueue(a.kind, a.data))];
    assert slipped[..|slipped| - 1] == first;
    events := GoAllIsRun(slipped, Slip(Ride(before), r, a), after);
  }

  /** The peer's session ends, by moves that queue nothing more, in a run of `Session`. */
  ghost predicate EndsPeer(before: seq<Move>, r: Role, a: AppFrame, after: seq<Move>,
                           first: seq<Event>, events: seq<Event>)
  {
    && QueuesNothing(after)
    && SlipEnds(before, r, a, after, r.Peer())
    && RunsTo(before, r, a, after, first, events)
  }

  /**
   Which application frame a rekey does not survive.  After any ride on an in-order channel with everything
   succeeding, and with counters left for what is queued: a frame that either side queues now can lead to the end of
   a session if and only if that side is inside its window.
   */
  lemma ASlipEndsExactlyInTheWindow(before: seq<Move>, r: Role, a: AppFrame)
    requires IsApp(a) && CountersLeft(DuoOf(Ride(before)))
    ensures (exists after: seq<Move>, who: Role :: SlipEnds(before, r, a, after, who))
            <==> InWindow(SideOf(Ride(before).w.At(r)))
    ensures InWindow(SideOf(Ride(before).w.At(r))) ==>
              exists after, first, events :: EndsPeer(before, r, a, after, first, events)
  {
    hide Ride, InWindow, SlipEnds, SideOf, DuoOf, BothLive, RunsTo, QueuesNothing;
    RideLives(before);
    SidesOf(Ride(before));
    if InWindow(SideOf(Ride(before).w.At(r))) {
      var after := InsideEnds(before, r, a);
      var first, events := SlipIsRun(before, r, a, after);
      assert EndsPeer(before, r, a, after, first, events);
    } else {
      forall after: seq<Move>, who: Role
        ensures !SlipEnds(before, r, a, after, who)
      {
        OutsideNeverEnds(before, r, a, after, who);
      }
    }
  }

  // ---- a frame that is sealed only after the switch ---------------------------------------------------------

  /** Through `moves` the side stays inside its window and seals nothing but what it had queued before the late frame. */
  predicate HoldsBack(d: Duo, r: Role, moves: seq<Move>)
    decreases |moves|
  {
    moves == [] ||
    (&& InWindow(SideAt(Play(d, moves[0]), r))
     && (moves[0] == Send(r) ==> SideAt(d, r).outbox != [])
     && HoldsBack(Play(d, moves[0]), r, moves[1..]))
  }

  lemma PhasesAreSmooth(d: Duo, m: Move)
    requires InSomePhase(d)
    ensures Smooth(d, m)
  {
    PhasesAreSane(d, m.role);
    hide InSomePhase, NextFits;
  }

  /** Inside its window a side is upgraded, and has no pair coming and no record being written. */
  lemma WindowFacts(d: Duo, r: Role)
    requires InSomePhase(d) && InWindow(SideAt(d, r))
    ensures var s := SideAt(d, r);
      && s.localPrf && !s.upgrading && !s.keygen && !s.inbound.JoinerDerive? && !s.inbound.CommitPersist?
      && (s.inbound.CommitNext? ==> s.pendingPair.None?)
  {
  }

  /** What a side inside its window may do alone, but for its switch, leaves its queue as it is. */
  predicate QueueAsideOf(r: Role, s: Side, m: Move, t: Task, next: nat) {
    var x := Alone(r, s, m, next);
    x.side.outbox == s.outbox
    && Alone(r, s.(outbox := s.outbox + [t]), m, next) == x.(side := x.side.(outbox := s.outbox + [t]))
  }

  lemma DeriveHoldsBack(r: Role, s: Side, t: Task, next: nat)
    requires !s.inbound.JoinerDerive?
    ensures QueueAsideOf(r, s, Move.Derive(r), t, next)
  {
    hide Agree, SwitchSide, KeygenSide, CommitDone;
    if s.inbound.InitiatorDerive? {
    }
  }

  lemma OthersHoldBack(r: Role, s: Side, m: Move, t: Task, next: nat)
    requires m.role == r && !m.Send? && !m.Deliver? && !m.Derive? && InWindow(s)
    requires s.localPrf && !s.upgrading && !s.keygen && !s.inbound.CommitPersist?
    requires m.CommitSwitch? ==> !s.inbound.CommitNext?
    ensures QueueAsideOf(r, s, m, t, next)
  {
    hide DeriveSide, CommitDone;
    assert InWindow(s.(outbox := s.outbox + [t]));
  }

  lemma SwitchLeavesWindow(r: Role, s: Side, wrap: bool, next: nat)
    requires s.inbound.CommitNext? && s.pendingPair.None?
    ensures !InWindow(Alone(r, s, Move.CommitSwitch(r, wrap), next).side)
  {
  }

  lemma AloneHoldsBack(r: Role, s: Side, m: Move, t: Task, next: nat)
    requires m.role == r && !m.Send? && !m.Deliver? && InWindow(s) && InWindow(Alone(r, s, m, next).side)
    requires s.localPrf && !s.upgrading && !s.keygen && !s.inbound.JoinerDerive? && !s.inbound.CommitPersist?
    requires s.inbound.CommitNext? ==> s.pendingPair.None?
    ensures QueueAsideOf(r, s, m, t, next)
  {
    hide Alone, InWindow, QueueAsideOf;
    if m.Derive? {
      DeriveHoldsBack(r, s, t, next);
    } else {
      if m.CommitSwitch? && s.inbound.CommitNext? {
        SwitchLeavesWindow(r, s, m.wrap, next);
      }
      OthersHoldBack(r, s, m, t, next);
    }
  }

  /** The same side with one task more at the end of its queue. */
  function Under(s: Side, t: Task): Side {
    s.(outbox := s.outbox + [t])
  }

  lemma StartUnder(r: Role, s: Side, t: Task)
    ensures StartRekey(r, Under(s, t)) == Under(StartRekey(r, s), t)
  {
  }

  lemma HeardUnder(s: Side, counter: nat, t: Task)
    ensures Under(s, t).(recv := counter) == Under(s.(recv := counter), t)
    ensures Under(s, t).(recv := counter, peerPrf := true) == Under(s.(recv := counter, peerPrf := true), t)
  {
  }

  lemma AnnouncementUnder(r: Role, s: Side, f: Frame, t: Task)
    requires f.kind == ModeUpgraded
    ensures Take(r, Under(s, t), f) == Under(Take(r, s, f), t)
  {
    HeardUnder(s, f.counter, t);
    StartUnder(r, s.(recv := f.counter, peerPrf := true), t);
    UnderKeeps(s, t);
    hide StartRekey, Under;
  }

  lemma UnderKeeps(s: Side, t: Task)
    ensures Under(s, t).localPrf == s.localPrf && Under(s, t).pendingPair == s.pendingPair
  {
  }

  lemma EndUnder(s: Side, t: Task, inbound: Inbound)
    ensures Under(s, t).(ended := true) == Under(s.(ended := true), t)
    ensures Under(s, t).(inbound := inbound) == Under(s.(inbound := inbound), t)
    ensures Under(s, t).(rekeyInFlight := true, inbound := inbound)
            == Under(s.(rekeyInFlight := true, inbound := inbound), t)
  {
  }

  lemma TakeUnder(r: Role, s: Side, f: Frame, t: Task)
    ensures Take(r, Under(s, t), f) == Under(Take(r, s, f), t)
  {
    hide StartRekey, Under;
    if f.kind == ModeUpgraded {
      AnnouncementUnder(r, s, f, t);
    } else {
      HeardUnder(s, f.counter, t);
      UnderKeeps(s, t);
      EndUnder(s.(recv := f.counter), t, if f.payload.PublicKey? then InboundOf(f) else Ready);
    }
  }

  function InboundOf(f: Frame): Inbound
    requires f.payload.PublicKey?
  {
    if f.kind == RekeyInit then JoinerDerive(f.payload.pair) else InitiatorDerive(f.payload.pair)
  }

  lemma TakeUnderTask(r: Role, s: Side, f: Frame, t: Task)
    ensures Take(r, s.(outbox := s.outbox + [t]), f) == Take(r, s, f).(outbox := Take(r, s, f).outbox + [t])
  {
    hide Take;
    TakeUnder(r, s, f, t);
  }

  lemma SendHoldsBack(d: Duo, r: Role, t: Task)
    requires SideAt(d, r).outbox != []
    ensures Play(WithTask(d, r, t), Send(r)) == WithTask(Play(d, Send(r)), r, t)
  {
    hide Sent, SentFrame;
    SentUnderTask(r, SideAt(d, r), t);
  }

  lemma DeliverHoldsBack(d: Duo, r: Role, t: Task)
    ensures Play(WithTask(d, r, t), Move.Deliver(r)) == WithTask(Play(d, Move.Deliver(r)), r, t)
  {
    hide Take;
    if QueueTo(d, r) != [] {
      TakeUnderTask(r, SideAt(d, r), QueueTo(d, r)[0], t);
    }
  }

  lemma AloneIsPlayed(d: Duo, r: Role, t: Task, m: Move)
    requires m.role == r && !m.Send? && !m.Deliver? && QueueAsideOf(r, SideAt(d, r), m, t, d.next)
    ensures Play(WithTask(d, r, t), m) == WithTask(Play(d, m), r, t)
  {
    hide Alone;
  }

  lemma PeerHoldsBack(d: Duo, r: Role, t: Task, m: Move)
    requires m.role == r.Peer()
    ensures Play(WithTask(d, r, t), m) == WithTask(Play(d, m), r, t)
  {
    hide Alone, Take, Sent, SentFrame;
  }

  lemma SmoothUnder(d: Duo, r: Role, t: Task, m: Move)
    requires Smooth(d, m)
    ensures Smooth(WithTask(d, r, t), m)
  {
  }

  lemma PlayedAlone(d: Duo, m: Move)
    requires !m.Send? && !m.Deliver?
    ensures SideAt(Play(d, m), m.role) == Alone(m.role, SideAt(d, m.role), m, d.next).side
  {
    hide Alone;
  }

  /** Until the late frame is sealed the pages do not differ but for it. */
  lemma HoldsBackStep(d: Duo, r: Role, t: Task, m: Move)
    requires InSomePhase(d) && InWindow(SideAt(d, r)) && InWindow(SideAt(Play(d, m), r))
    requires m == Send(r) ==> SideAt(d, r).outbox != []
    ensures Play(WithTask(d, r, t), m) == WithTask(Play(d, m), r, t)
    ensures Smooth(WithTask(d, r, t), m)
  {
    hide InSomePhase, InWindow, Play, WithTask, Smooth, QueueAsideOf;
    PhasesAreSmooth(d, m);
    SmoothUnder(d, r, t, m);
    if m.role != r {
      PeerHoldsBack(d, r, t, m);
    } else if m.Send? {
      SendHoldsBack(d, r, t);
    } else if m.Deliver? {
      DeliverHoldsBack(d, r, t);
    } else {
      WindowFacts(d, r);
      PlayedAlone(d, m);
      AloneHoldsBack(r, SideAt(d, r), m, t, d.next);
      AloneIsPlayed(d, r, t, m);
    }
  }

  lemma {:induction false} HoldsBackLeads(d: Duo, r: Role, t: Task, moves: seq<Move>)
    requires InSomePhase(d) && InWindow(SideAt(d, r)) && HoldsBack(d, r, moves)
    ensures Leads(WithTask(d, r, t), moves, WithTask(PlayAll(d, moves), r, t)) && InSomePhase(PlayAll(d, moves))
    decreases |moves|
  {
    hide InSomePhase, InWindow, Play, WithTask, Smooth;
    if moves != [] {
      PlayKept(d, moves[0]);
      HoldsBackStep(d, r, t, moves[0]);
      HoldsBackLeads(Play(d, moves[0]), r, t, moves[1..]);
    }
  }

  lemma InitiatorSwitchesUnder(d: Duo, t: Task, wrap: bool)
    requires InSomePhase(d) && d.i.inbound.CommitNext? && Routine(t.kind) && t.after == Done
    ensures InSomePhase(Play(WithTask(d, Initiator, t), Move.CommitSwitch(Initiator, wrap)))
  {
    assert PhaseAcked(d);
    hide PhaseBefore, PhaseInit, PhaseDerive, PhaseAck, PhaseAckSealed, Agree;
    assert PhaseAfter(Play(WithTask(d, Initiator, t), Move.CommitSwitch(Initiator, wrap)));
  }

  lemma JoinerSwitchesUnderSealed(d: Duo, t: Task, wrap: bool, m: nat)
    requires Healthy(d) && PhaseAckSealed(d, m) && d.j.inbound.CommitNext? && Routine(t.kind) && t.after == Done
    ensures InSomePhase(Play(WithTask(d, Joiner, t), Move.CommitSwitch(Joiner, wrap)))
  {
    hide PhaseBefore, PhaseInit, PhaseDerive, PhaseAck, PhaseAcked, PhaseAfter, Agree;
    assert PhaseAckSealed(Play(WithTask(d, Joiner, t), Move.CommitSwitch(Joiner, wrap)), m);
  }

  lemma JoinerSwitchesUnderAcked(d: Duo, t: Task, wrap: bool)
    requires Healthy(d) && PhaseAcked(d) && d.j.inbound.CommitNext? && Routine(t.kind) && t.after == Done
    ensures InSomePhase(Play(WithTask(d, Joiner, t), Move.CommitSwitch(Joiner, wrap)))
  {
    hide PhaseBefore, PhaseInit, PhaseDerive, PhaseAck, PhaseAckSealed, PhaseAfter, Agree;
    assert PhaseAcked(Play(WithTask(d, Joiner, t), Move.CommitSwitch(Joiner, wrap)));
  }

  lemma JoinerSwitchesUnderAfter(d: Duo, t: Task, wrap: bool)
    requires Healthy(d) && PhaseAfter(d) && d.j.inbound.CommitNext? && Routine(t.kind) && t.after == Done
    ensures InSomePhase(Play(WithTask(d, Joiner, t), Move.CommitSwitch(Joiner, wrap)))
  {
    hide PhaseBefore, PhaseInit, PhaseDerive, PhaseAck, PhaseAckSealed, PhaseAcked, Agree;
    assert PhaseAfter(Play(WithTask(d, Joiner, t), Move.CommitSwitch(Joiner, wrap)));
  }

  lemma JoinerSwitchPhases(d: Duo)
    requires InSomePhase(d) && d.j.inbound.CommitNext?
    ensures Healthy(d) && (PhaseAcked(d) || PhaseAfter(d) || exists m: nat :: PhaseAckSealed(d, m))
  {
  }

  /** With the late frame still queued the switch leads back into a phase of the clean machine. */
  lemma SwitchesUnder(d: Duo, r: Role, t: Task, wrap: bool)
    requires InSomePhase(d) && SideAt(d, r).inbound.CommitNext? && Routine(t.kind) && t.after == Done
    ensures InSomePhase(Play(WithTask(d, r, t), Move.CommitSwitch(r, wrap)))
    ensures Smooth(WithTask(d, r, t), Move.CommitSwitch(r, wrap))
  {
    hide InSomePhase, Healthy, PhaseAcked, PhaseAfter, PhaseAckSealed, Play, WithTask, Smooth;
    PhasesAreSmooth(d, Move.CommitSwitch(r, wrap));
    SmoothUnder(d, r, t, Move.CommitSwitch(r, wrap));
    if r == Initiator {
      InitiatorSwitchesUnder(d, t, wrap);
    } else {
      JoinerSwitchPhases(d);
      if PhaseAcked(d) {
        JoinerSwitchesUnderAcked(d, t, wrap);
      } else if PhaseAfter(d) {
        JoinerSwitchesUnderAfter(d, t, wrap);
      } else {
        var m: nat :| PhaseAckSealed(d, m);
        JoinerSwitchesUnderSealed(d, t, wrap, m);
      }
    }
  }

  lemma {:induction false} GoAllOk(l: Line, moves: seq<Move>)
    requires LineOk(l)
    ensures LineOk(GoAll(l, moves))
    decreases |moves|
  {
    LineLive(l);
    hide Go, LineOk, BothLive;
    if moves != [] {
      GoKept(l, moves[0]);
      GoAllOk(Go(l, moves[0]), moves[1..]);
    }
  }

  lemma OkHasNotEnded(l: Line, who: Role)
    requires LineOk(l)
    ensures !HasEnded(l, who)
  {
    NotEnded(DuoOf(l));
    LineFacts(l);
    hide InSomePhase;
  }

  /** A frame queued inside the window that its side seals only after its own switch ends no session. */
  lemma SealedAfterTheSwitchIsHarmless(before: seq<Move>, r: Role, a: AppFrame, held: seq<Move>, wrap: bool,
                                       after: seq<Move>, who: Role)
    requires IsApp(a) && InWindow(SideAt(DuoOf(Ride(before)), r))
    requires var d := DuoOf(Ride(before)); HoldsBack(d, r, held) && SideAt(PlayAll(d, held), r).inbound.CommitNext?
    ensures !SlipEnds(before, r, a, held + [Move.CommitSwitch(r, wrap)] + after, who)
  {
    hide Ride, InSomePhase, InWindow, HoldsBack, Leads, LineSound, DuoOf, Slip, Go, GoAll, WithTask, HasEnded, BothLive;
    hide PlayAll, SmoothAll;
    RideLives(before);
    var d := DuoOf(Ride(before));
    var switch := Move.CommitSwitch(r, wrap);
    var t := AppTask(a);
    BothGoOn(d, r);
    SlipFollows(Ride(before), r, a);
    HoldsBackLeads(d, r, t, held);
    SwitchesUnder(PlayAll(d, held), r, t, wrap);
    var held' := WithTask(PlayAll(d, held), r, t);
    LeadsOne(held', switch);
    LeadsOn(WithTask(d, r, t), held, held', [switch], Play(held', switch));
    LeadsSounds(Slip(Ride(before), r, a), held + [switch], Play(held', switch));
    var l := GoAll(Slip(Ride(before), r, a), held + [switch]);
    LineLive(l);
    GoAllOk(l, after);
    GoAllOn(Slip(Ride(before), r, a), held + [switch], after);
    OkHasNotEnded(GoAll(l, after), who);
  }
}
