/**
 The rekey of `RekeyFifo` is the rekey of `Session`: a line is a `Session` world whose relay delivers every
 frame once and in order.  Each move is one `Session` event, so what the phases say holds of the real pages.
 */
module RekeyRefinement {
  import opened Bytes
  import opened Nonce
  import opened Wire
  import opened Channel
  import opened Session
  import opened RekeyFifo

  datatype Line = Line(w: World, toJ: seq<Frame>, toI: seq<Frame>) {
    function Queue(r: Role): seq<Frame> {
      if r == Initiator then toI else toJ
    }
  }

  function SideOf(e: Endpoint): Side
    requires Live(e)
  {
    var p := e.page.value;
    var a := p.active.value;
    Side(a.key, a.committed, a.recv, p.localPrf, p.peerPrf, p.terminated, p.upgrading.Some?,
         p.rekeyInFlight, p.keygen, p.pendingPair, p.inbound, p.outbox)
  }

  predicate BothLive(l: Line) {
    Live(l.w.initiator) && Live(l.w.joiner)
  }

  function DuoOf(l: Line): Duo
    requires BothLive(l)
  {
    Duo(SideOf(l.w.initiator), SideOf(l.w.joiner), l.toJ, l.toI, l.w.nextPair)
  }

  /** The event a move stands for; `None` when the move is not enabled. */
  function ActionFor(l: Line, m: Move): Option<Action>
    requires BothLive(l)
  {
    var s := SideOf(l.w.At(m.role));
    match m
    case Enqueue(_, kind, data) => if InWindow(s) then None else Some(Action.Enqueue(kind, data))
    case Send(_) => if s.committed >= MAX_COUNTER then None else Some(RunTask(true, true, true))
    case UpgradeStart(_) => Some(Action.UpgradeStart)
    case UpgradePersist(_) => Some(Action.UpgradePersist(true, true))
    case Keygen(_) => Some(Action.Keygen(true))
    case Derive(_) => Some(Action.Derive(true))
    case CommitSwitch(_, wrap) => Some(Action.CommitSwitch(wrap))
    case CommitWrite(_) => Some(Action.CommitWrite(true, true))
    case Deliver(_) =>
      var q := l.Queue(m.role);
      if q == [] || s.inbound != Ready || NonceOf(q[0]).None? then None
      else Some(Action.Deliver(q[0].kind, NonceOf(q[0]).value, Sealed(q[0]), true, true))
  }

  function Go(l: Line, m: Move): Line
    requires BothLive(l)
  {
    var action := ActionFor(l, m);
    if action.None? then l
    else
      var x := Act(m.role, l.w.At(m.role), action.value, l.w.log, l.w.nextPair);
      var w' := Step(l.w, Event(m.role, action.value));
      var toJ := if m == Move.Deliver(Joiner) then l.toJ[1..] else l.toJ;
      var toI := if m == Move.Deliver(Initiator) then l.toI[1..] else l.toI;
      if x.sealed.None? then Line(w', toJ, toI)
      else if m.role == Initiator then Line(w', toJ + [x.sealed.value], toI)
      else Line(w', toJ, toI + [x.sealed.value])
  }

  ghost predicate EndFine(e: Endpoint) {
    && Live(e)
    && e.page.value.active.value.mode == Strict
    && e.page.value.localPrf == e.page.value.active.value.mirror.Some?
  }

  /** Both pages are live and strict, and what is on its way was sealed. */
  ghost predicate LineSound(l: Line) {
    && EndFine(l.w.initiator) && EndFine(l.w.joiner)
    && (forall k :: 0 <= k < |l.toJ| ==> l.toJ[k] in l.w.log)
    && (forall k :: 0 <= k < |l.toI| ==> l.toI[k] in l.w.log)
  }

  ghost predicate LineOk(l: Line) {
    LineSound(l) && InSomePhase(DuoOf(l))
  }

  // ---- one end follows one side -----------------------------------------------------------------

  ghost predicate Follows(e: Endpoint, s: Side) {
    EndFine(e) && SideOf(e) == s
  }

  lemma MarkRefines(e: Endpoint)
    requires EndFine(e)
    ensures Follows(Mark(e, true), SideOf(e))
  {
  }

  lemma StartRefines(r: Role, e: Endpoint)
    requires EndFine(e)
    ensures Follows(StartRekeyIfInitiator(r, e, true), StartRekey(r, SideOf(e)))
  {
  }

  lemma AfterRefines(r: Role, e: Endpoint, after: After)
    requires EndFine(e)
    ensures Follows(RunAfter(r, e, after, true, true), Continue(r, SideOf(e), after))
  {
    hide StartRekeyIfInitiator;
    StartRefines(r, e);
  }

  lemma SendRefines(r: Role, e: Endpoint)
    requires EndFine(e) && e.page.value.outbox != []
    requires !e.page.value.terminated && e.page.value.active.value.committed < MAX_COUNTER
    ensures var x := RunHead(r, e, true, true, true);
            && EndFine(x.e) && SideOf(x.e) == Sent(r, SideOf(e))
            && x == Effect(x.e, Some(SentFrame(r, SideOf(e))), 0)
  {
    hide RunAfter, Continue;
    var p := e.page.value;
    var popped := e.(page := Some(p.(outbox := p.outbox[1..])));
    var o := Allocate(p.active.value, e.store, p.outbox[0].kind, true);
    AfterRefines(r, WithActive(popped, o), p.outbox[0].after);
  }

  lemma ModeRefines(r: Role, e: Endpoint, f: Frame)
    requires EndFine(e) && !e.page.value.terminated && e.page.value.active.value.recv == f.counter
    requires f.kind == ModeUpgraded
    ensures Follows(HandleOther(r, e, f, true), Take(r, SideOf(e), f))
  {
    hide StartRekeyIfInitiator, StartRekey, Mark;
    StartRefines(r, e.(page := Some(e.page.value.(peerPrf := true))));
  }

  lemma EndedRefines(e: Endpoint)
    requires EndFine(e)
    ensures Follows(Ended(e), SideOf(e).(ended := true))
  {
  }

  lemma FlightRefines(e: Endpoint)
    requires EndFine(e)
    ensures Follows(e.(page := Some(e.page.value.(rekeyInFlight := true))), SideOf(e).(rekeyInFlight := true))
  {
  }

  lemma InboundRefines(e: Endpoint, inbound: Inbound)
    requires EndFine(e)
    ensures Follows(e.(page := Some(e.page.value.(inbound := inbound))), SideOf(e).(inbound := inbound))
  {
  }

  lemma SideFacts(e: Endpoint)
    requires EndFine(e)
    ensures Live(e)
    ensures SideOf(e).ended == e.page.value.terminated && SideOf(e).recv == e.page.value.active.value.recv
    ensures SideOf(e).pendingPair == e.page.value.pendingPair
  {
  }

  lemma FollowsIs(e: Endpoint, s: Side)
    ensures Follows(e, s) <==> EndFine(e) && SideOf(e) == s
  {
  }

  lemma InitRefines(r: Role, e: Endpoint, f: Frame)
    requires EndFine(e) && !e.page.value.terminated && e.page.value.active.value.recv == f.counter
    requires f.kind == RekeyInit
    ensures Follows(HandleOther(r, e, f, true), Take(r, SideOf(e), f))
  {
    hide SideOf, Follows, Mark, EndFine, StartRekey, StartRekeyIfInitiator;
    SideFacts(e);
    var s := SideOf(e);
    assert s.(recv := f.counter) == s;
    if !f.payload.PublicKey? || r != Joiner {
      EndedRefines(e);
    } else {
      var e1 := e.(page := Some(e.page.value.(rekeyInFlight := true)));
      FlightRefines(e);
      FollowsIs(e1, s.(rekeyInFlight := true));
      MarkRefines(e1);
      var e2 := Mark(e1, true);
      FollowsIs(e2, s.(rekeyInFlight := true));
      SideFacts(e2);
      InboundRefines(e2, JoinerDerive(f.payload.pair));
    }
  }

  lemma AckRefines(r: Role, e: Endpoint, f: Frame)
    requires EndFine(e) && !e.page.value.terminated && e.page.value.active.value.recv == f.counter
    requires f.kind == RekeyAck
    ensures Follows(HandleOther(r, e, f, true), Take(r, SideOf(e), f))
  {
    hide SideOf, Follows, Mark, EndFine, StartRekey, StartRekeyIfInitiator;
    SideFacts(e);
    var s := SideOf(e);
    assert s.(recv := f.counter) == s;
    if !f.payload.PublicKey? || r != Initiator || e.page.value.pendingPair.None? {
      EndedRefines(e);
    } else {
      InboundRefines(e, InitiatorDerive(f.payload.pair));
    }
  }

  lemma RoutineRefines(r: Role, e: Endpoint, f: Frame)
    requires EndFine(e) && e.page.value.active.value.recv == f.counter && Routine(f.kind)
    ensures Follows(HandleOther(r, e, f, true), Take(r, SideOf(e), f))
  {
    hide SideOf, Follows, Mark, EndFine, StartRekey, StartRekeyIfInitiator;
    SideFacts(e);
    var s := SideOf(e);
    assert s.(recv := f.counter) == s;
    FollowsIs(e, s);
  }

  lemma OtherRefines(r: Role, e: Endpoint, f: Frame)
    requires EndFine(e) && !e.page.value.terminated && e.page.value.active.value.recv == f.counter && f.kind != Msg
    ensures Follows(HandleOther(r, e, f, true), Take(r, SideOf(e), f))
  {
    hide SideOf, Follows, HandleOther, Take, EndFine;
    match f.kind
    case ModeUpgraded => ModeRefines(r, e, f);
    case RekeyInit => InitRefines(r, e, f);
    case RekeyAck => AckRefines(r, e, f);
    case _ => RoutineRefines(r, e, f);
  }

  lemma TextRefines(r: Role, e: Endpoint, f: Frame)
    requires EndFine(e) && f.kind == Msg
    ensures Follows(HandleText(e, f, true), Take(r, SideOf(e), f))
  {
  }

  lemma HandleRefines(r: Role, e: Endpoint, f: Frame)
    requires EndFine(e) && !e.page.value.terminated
    ensures Follows(Handle(r, e, f, true, true), Take(r, SideOf(e), f))
  {
    hide HandleOther, HandleText;
    if f.kind == Msg {
      TextRefines(r, e, f);
    } else {
      var p := e.page.value;
      OtherRefines(r, e.(page := Some(p.(active := Some(p.active.value.(recv := f.counter)),
                                         accepted := p.accepted + [f]))), f);
    }
  }

  lemma DeliverRefines(r: Role, e: Endpoint, log: seq<Frame>, f: Frame)
    requires EndFine(e) && !e.page.value.terminated
    requires f in log && f.key == e.page.value.active.value.key && f.sender == r.Peer()
    requires f.counter == e.page.value.active.value.recv + 1 && f.counter <= MAX_COUNTER
    ensures Validate(log, r, e.page.value.active.value, f.kind, NonceOf(f).value, Sealed(f)) == Opened(f)
    ensures var e' := DeliverTo(r, e, log, Action.Deliver(f.kind, NonceOf(f).value, Sealed(f), true, true));
            Follows(e', Take(r, SideOf(e), f))
  {
    hide Handle, Validate;
    var a := e.page.value.active.value;
    ValidateMeaning(log, r, a, f.kind, NonceOf(f).value, Sealed(f));
    HandleRefines(r, e.(page := Some(e.page.value.(active := Some(a.(mode := Strict))))), f);
  }

  lemma EnqueueRefines(r: Role, e: Endpoint, m: Move, n: nat)
    requires EndFine(e) && !e.page.value.terminated && m.Enqueue? && !InWindow(SideOf(e))
    ensures Follows(EnqueueApp(e, m.kind, m.data), Alone(r, SideOf(e), m, n).side)
  {
  }

  lemma BeginRefines(r: Role, e: Endpoint, m: Move, n: nat)
    requires EndFine(e) && !e.page.value.terminated && m.UpgradeStart?
    ensures Follows(BeginUpgrade(e), Alone(r, SideOf(e), m, n).side)
  {
  }

  lemma FinishRefines(r: Role, e: Endpoint, m: Move, n: nat)
    requires EndFine(e) && !e.page.value.terminated && m.UpgradePersist?
    ensures Follows(FinishUpgrade(e, true, true), Alone(r, SideOf(e), m, n).side)
  {
  }

  ghost predicate Matches(x: Effect, solo: Solo) {
    Follows(x.e, solo.side) && x.sealed == None && x.pairs == solo.pairs
  }

  lemma KeygenRefines(e: Endpoint, n: nat)
    requires EndFine(e)
    ensures Matches(FinishKeygen(e, true, n), KeygenSide(SideOf(e), n))
  {
  }

  lemma JoinerDeriveRefines(e: Endpoint, n: nat)
    requires EndFine(e) && e.page.value.inbound.JoinerDerive?
    ensures Matches(DeriveKey(e, true, n), DeriveSide(SideOf(e), n))
  {
    hide Agree;
  }

  lemma InitiatorDeriveRefines(e: Endpoint, n: nat)
    requires EndFine(e) && e.page.value.inbound.InitiatorDerive?
    ensures Matches(DeriveKey(e, true, n), DeriveSide(SideOf(e), n))
  {
    hide Agree;
  }

  lemma DeriveRefines(e: Endpoint, n: nat)
    requires EndFine(e)
    ensures Matches(DeriveKey(e, true, n), DeriveSide(SideOf(e), n))
  {
    if e.page.value.inbound.JoinerDerive? {
      JoinerDeriveRefines(e, n);
    } else if e.page.value.inbound.InitiatorDerive? {
      InitiatorDeriveRefines(e, n);
    }
  }

  lemma SwitchRefines(r: Role, e: Endpoint, m: Move, n: nat)
    requires EndFine(e) && !e.page.value.terminated && m.CommitSwitch?
    ensures Follows(SwitchToNewKey(e, m.wrap), Alone(r, SideOf(e), m, n).side)
  {
  }

  lemma WriteRefines(r: Role, e: Endpoint, m: Move, n: nat)
    requires EndFine(e) && !e.page.value.terminated && m.CommitWrite?
    requires e.page.value.inbound.CommitPersist? ==> e.page.value.localPrf
    ensures Follows(WriteNewRecord(e, true, true), Alone(r, SideOf(e), m, n).side)
  {
  }

  // ---- a move is a step ---------------------------------------------------------------------------

  /** The next frame on its way to a ready side has exactly the key and counter that side expects. */
  lemma NextFrameFits(d: Duo, r: Role)
    requires InSomePhase(d)
    ensures r == Initiator && d.toI != [] && d.i.inbound == Ready ==>
              && d.toI[0].key == d.i.key && d.toI[0].sender == Joiner
              && d.toI[0].counter == d.i.recv + 1 && d.toI[0].counter <= MAX_COUNTER
    ensures r == Joiner && d.toJ != [] && d.j.inbound == Ready ==>
              && d.toJ[0].key == d.j.key && d.toJ[0].sender == Initiator
              && d.toJ[0].counter == d.j.recv + 1 && d.toJ[0].counter <= MAX_COUNTER
  {
    if m: nat :| PhaseAckSealed(d, m) {
      assert d.toI[0] == d.toI[..m + 1][0];
    }
  }

  /** A side that is writing its new record is in PRF mode. */
  lemma WritingIsPrf(d: Duo)
    requires InSomePhase(d)
    ensures d.i.inbound.CommitPersist? ==> d.i.localPrf
    ensures d.j.inbound.CommitPersist? ==> d.j.localPrf
  {
  }

  lemma SideRefines(r: Role, e: Endpoint, log: seq<Frame>, n: nat, m: Move, action: Action)
    requires EndFine(e) && !e.page.value.terminated
    requires e.page.value.inbound.CommitPersist? ==> e.page.value.localPrf
    requires !m.Send? && !m.Deliver? && (m.Enqueue? ==> !InWindow(SideOf(e)))
    requires match m
             case Enqueue(_, kind, data) => action == Action.Enqueue(kind, data)
             case UpgradeStart(_) => action == Action.UpgradeStart
             case UpgradePersist(_) => action == Action.UpgradePersist(true, true)
             case Keygen(_) => action == Action.Keygen(true)
             case Derive(_) => action == Action.Derive(true)
             case CommitSwitch(_, wrap) => action == Action.CommitSwitch(wrap)
             case CommitWrite(_) => action == Action.CommitWrite(true, true)
             case _ => false
    ensures Matches(Act(r, e, action, log, n), Alone(r, SideOf(e), m, n))
  {
    hide EnqueueApp, BeginUpgrade, FinishUpgrade, FinishKeygen, DeriveKey, SwitchToNewKey, WriteNewRecord;
    hide Follows, SideOf, KeygenSide, DeriveSide;
    match m
    case Enqueue(_, _, _) => EnqueueRefines(r, e, m, n);
    case UpgradeStart(_) => BeginRefines(r, e, m, n);
    case UpgradePersist(_) => FinishRefines(r, e, m, n);
    case Keygen(_) => KeygenRefines(e, n);
    case Derive(_) => DeriveRefines(e, n);
    case CommitSwitch(_, _) => SwitchRefines(r, e, m, n);
    case CommitWrite(_) => WriteRefines(r, e, m, n);
  }

  /** A move that is not enabled changes nothing on either side. */
  lemma GoBlocked(l: Line, m: Move)
    requires LineSound(l) && !m.Send? && !m.Deliver? && ActionFor(l, m).None?
    ensures Go(l, m) == l && Play(DuoOf(l), m) == DuoOf(l)
  {
    hide Alone, Act, SideOf;
    WindowBlocks(m.role, SideOf(l.w.At(m.role)), m, l.w.nextPair);
  }

  /** A line whose one end moves from `SideOf(e)` to `x.side` without sealing anything. */
  lemma Moved(l: Line, r: Role, x: Effect, solo: Solo)
    requires LineSound(l) && Matches(x, solo)
    ensures var w' := l.w.Put(r, x.e).(nextPair := l.w.nextPair + x.pairs);
      var d := DuoOf(l);
      && LineSound(Line(w', l.toJ, l.toI))
      && DuoOf(Line(w', l.toJ, l.toI)) ==
           if r == Initiator then d.(i := solo.side, next := d.next + solo.pairs)
           else d.(j := solo.side, next := d.next + solo.pairs)
  {
    hide SideOf;
  }

  lemma GoActs(l: Line, m: Move)
    requires LineSound(l) && !m.Send? && !m.Deliver? && ActionFor(l, m).Some?
    requires
      Matches(Act(m.role, l.w.At(m.role), ActionFor(l, m).value, l.w.log, l.w.nextPair),
              Alone(m.role, SideOf(l.w.At(m.role)), m, l.w.nextPair))
    ensures LineSound(Go(l, m)) && DuoOf(Go(l, m)) == Play(DuoOf(l), m)
  {
    hide Alone, Act, SideOf, ActionFor, LineSound, Matches, Go, Play;
    LineFacts(l);
    PlayUnfolds(DuoOf(l), m);
    var x := Act(m.role, l.w.At(m.role), ActionFor(l, m).value, l.w.log, l.w.nextPair);
    var solo := Alone(m.role, SideOf(l.w.At(m.role)), m, l.w.nextPair);
    NothingSealed(x, solo);
    Moved(l, m.role, x, solo);
    GoUnfolds(l, m, ActionFor(l, m).value);
  }

  lemma GoUnfolds(l: Line, m: Move, action: Action)
    requires BothLive(l) && !m.Send? && !m.Deliver? && ActionFor(l, m) == Some(action)
    requires Act(m.role, l.w.At(m.role), action, l.w.log, l.w.nextPair).sealed == None
    ensures var x := Act(m.role, l.w.At(m.role), action, l.w.log, l.w.nextPair);
      Go(l, m) == Line(l.w.Put(m.role, x.e).(nextPair := l.w.nextPair + x.pairs), l.toJ, l.toI)
  {
    hide Act, ActionFor, SideOf;
  }

  lemma PlayUnfolds(d: Duo, m: Move)
    requires !m.Send? && !m.Deliver?
    ensures var x := Alone(m.role, SideAt(d, m.role), m, d.next);
      Play(d, m) == if m.role == Initiator then d.(i := x.side, next := d.next + x.pairs)
                    else d.(j := x.side, next := d.next + x.pairs)
  {
    hide Alone;
  }

  lemma NothingSealed(x: Effect, solo: Solo)
    requires Matches(x, solo)
    ensures x.sealed == None
  {
  }

  function SideAt(d: Duo, r: Role): Side {
    if r == Initiator then d.i else d.j
  }

  /** A move of one end alone on the line is the same move on the duo. */
  lemma GoAlone(l: Line, m: Move)
    requires LineSound(l) && !m.Send? && !m.Deliver? && !SideAt(DuoOf(l), m.role).ended
    requires var s := SideAt(DuoOf(l), m.role); s.inbound.CommitPersist? ==> s.localPrf
    ensures LineSound(Go(l, m)) && DuoOf(Go(l, m)) == Play(DuoOf(l), m)
  {
    hide Alone, Act, SideOf, Play, Go;
    LineFacts(l);
    if ActionFor(l, m).Some? {
      SideRefines(m.role, l.w.At(m.role), l.w.log, l.w.nextPair, m, ActionFor(l, m).value);
      GoActs(l, m);
    } else {
      GoBlocked(l, m);
    }
  }

  lemma WindowBlocks(r: Role, s: Side, m: Move, n: nat)
    requires m.Enqueue? && InWindow(s)
    ensures Alone(r, s, m, n) == Solo(s, 0)
  {
  }

  lemma NotEnded(d: Duo)
    requires InSomePhase(d)
    ensures !d.i.ended && !d.j.ended
  {
  }

  lemma LineFacts(l: Line)
    requires LineSound(l)
    ensures Live(l.w.initiator) && Live(l.w.joiner)
    ensures forall r: Role ::
      var p := l.w.At(r).page.value;
      var s := SideOf(l.w.At(r));
      && s.ended == p.terminated && s.inbound == p.inbound && s.localPrf == p.localPrf
      && s.key == p.active.value.key && s.recv == p.active.value.recv
    ensures forall r: Role :: SideAt(DuoOf(l), r) == SideOf(l.w.At(r))
  {
  }

  lemma GoSend(l: Line, r: Role)
    requires LineSound(l) && !SideAt(DuoOf(l), r).ended
    ensures LineSound(Go(l, Send(r))) && DuoOf(Go(l, Send(r))) == Play(DuoOf(l), Send(r))
  {
    hide RunHead, Sent, SentFrame;
    var e := l.w.At(r);
    if e.page.value.outbox != [] && e.page.value.active.value.committed < MAX_COUNTER {
      SendRefines(r, e);
    }
  }

  /** The next frame on its way to `r`, if it may be handed over now, was sealed for what `r` expects next. */
  predicate NextFits(d: Duo, r: Role) {
    var s := SideAt(d, r);
    var q := if r == Initiator then d.toI else d.toJ;
    q != [] && s.inbound == Ready ==>
      q[0].key == s.key && q[0].sender == r.Peer() && q[0].counter == s.recv + 1 && q[0].counter <= MAX_COUNTER
  }

  lemma GoDeliver(l: Line, r: Role)
    requires LineSound(l) && !SideAt(DuoOf(l), r).ended && NextFits(DuoOf(l), r)
    ensures LineSound(Go(l, Move.Deliver(r))) && DuoOf(Go(l, Move.Deliver(r))) == Play(DuoOf(l), Move.Deliver(r))
  {
    hide DeliverTo, Take, MakeNonce, SideOf, FieldsOf;
    LineFacts(l);
    var e := l.w.At(r);
    var q := l.Queue(r);
    if q != [] && e.page.value.inbound == Ready {
      DeliverRefines(r, e, l.w.log, q[0]);
    }
  }

  // ---- every ride ---------------------------------------------------------------------------------

  const Pairing := [Event(Initiator, Boot(true)), Event(Joiner, Boot(true)),
                    Event(Initiator, Handshake(1)), Event(Joiner, Handshake(0))]

  /** Two fresh pages that have just completed the handshake with each other. */
  function FreshLine(): Line {
    Line(Run(Pairing), [], [])
  }

  lemma PairingRuns()
    ensures Run(Pairing) == Step(Step(Step(Step(Start, Pairing[0]), Pairing[1]), Pairing[2]), Pairing[3])
  {
    hide Step;
    assert Pairing[..3][..2][..1][..0] == [];
    assert Pairing[..3][..2][..1][0] == Pairing[0] && Pairing[..3][..2][1] == Pairing[1];
    assert Run(Pairing[..3][..2][..1]) == Step(Start, Pairing[0]);
    assert Run(Pairing[..3][..2]) == Step(Step(Start, Pairing[0]), Pairing[1]);
    assert Run(Pairing[..3]) == Step(Step(Step(Start, Pairing[0]), Pairing[1]), Pairing[2]);
  }

  /** A page that has just agreed on the first session key, with its own pair `own`. */
  function FreshEnd(own: nat): Endpoint {
    Endpoint(None, Some(FreshPage(own).(active := Some(Active(Key(0, 1, false), 0, 0, 0, Strict, None)))))
  }

  const FreshSide := Side(Key(0, 1, false), 0, 0, false, false, false, false, false, false, None, Ready, [])

  lemma FreshLineIs()
    ensures FreshLine() == Line(World(FreshEnd(0), FreshEnd(1), [], 2), [], [])
  {
    PairingRuns();
    hide Run;
  }

  lemma FreshEndIs(own: nat)
    ensures EndFine(FreshEnd(own)) && SideOf(FreshEnd(own)) == FreshSide
  {
  }

  lemma FreshPhase()
    ensures InSomePhase(Duo(FreshSide, FreshSide, [], [], 2))
  {
    assert PhaseBefore(Duo(FreshSide, FreshSide, [], [], 2));
  }

  lemma FreshDuo()
    ensures LineSound(FreshLine()) && BothLive(FreshLine()) && DuoOf(FreshLine()) == Duo(FreshSide, FreshSide, [], [], 2)
  {
    FreshLineIs();
    FreshEndIs(0);
    FreshEndIs(1);
    hide FreshLine, SideOf;
  }

  lemma FreshLineOk()
    ensures LineOk(FreshLine())
  {
    hide FreshLine, DuoOf, LineSound, InSomePhase;
    FreshDuo();
    FreshPhase();
  }

  ghost function Ride(moves: seq<Move>): (l: Line)
    ensures LineOk(l)
  {
    if moves == [] then
      FreshLineOk();
      FreshLine()
    else
      var l := Ride(moves[..|moves| - 1]);
      var m := moves[|moves| - 1];
      GoKept(l, m);
      Go(l, m)
  }

  lemma LineLive(l: Line)
    requires LineSound(l)
    ensures BothLive(l)
  {
  }

  lemma GoKept(l: Line, m: Move)
    requires LineOk(l)
    ensures LineOk(Go(l, m)) && DuoOf(Go(l, m)) == Play(DuoOf(l), m)
  {
    LineLive(l);
    hide Go, DuoOf, Play, InSomePhase, LineSound;
    var d := DuoOf(l);
    PlayKept(d, m);
    NotEnded(d);
    if m.Send? {
      GoSend(l, m.role);
    } else if m.Deliver? {
      NextFrameFits(d, m.role);
      GoDeliver(l, m.role);
    } else {
      WritingIsPrf(d);
      GoAlone(l, m);
    }
  }

  /** Every ride is a run of `Session`, so its nonce and acceptance promises hold of it as well. */
  lemma {:induction false} RideIsRun(moves: seq<Move>) returns (events: seq<Event>)
    ensures Run(events) == Ride(moves).w
  {
    if moves == [] {
      events := Pairing;
    } else {
      var l := Ride(moves[..|moves| - 1]);
      var m := moves[|moves| - 1];
      events := RideIsRun(moves[..|moves| - 1]);
      var action := ActionFor(l, m);
      if action.Some? {
        var more := events + [Event(m.role, action.value)];
        assert more[..|more| - 1] == events;
        events := more;
      }
    }
  }

  /**
   On an in-order channel, through an upgrade of both sides and the rekey it triggers, neither page ever ends the
   session; the next frame always opens under the key and counter the receiver holds; two rekeyed sides
   hold the same key; and when nothing is in flight or pending both hold the same key.
   */
  lemma RekeyNeverFails(moves: seq<Move>, r: Role)
    ensures var l := Ride(moves);
            var page := l.w.At(r).page.value;
            var a := page.active.value;
            && !page.terminated
            && (l.Queue(r) != [] && page.inbound == Ready ==>
                  && NonceOf(l.Queue(r)[0]).Some?
                  && Validate(l.w.log, r, a, l.Queue(r)[0].kind, NonceOf(l.Queue(r)[0]).value, Sealed(l.Queue(r)[0]))
                     == Opened(l.Queue(r)[0]))
    ensures var l := Ride(moves);
            var i := SideOf(l.w.initiator);
            var j := SideOf(l.w.joiner);
            && (i.key.rekeyed && j.key.rekeyed ==> i.key == j.key)
            && (Settled(DuoOf(l)) ==> i.key == j.key)
  {
    var l := Ride(moves);
    var d := DuoOf(l);
    NotEnded(d);
    NextFrameFits(d, r);
    KeysAgree(d);
    var e := l.w.At(r);
    var q := l.Queue(r);
    if q != [] && e.page.value.inbound == Ready {
      DeliverRefines(r, e, l.w.log, q[0]);
    }
  }

  /** Nothing is queued, in flight or half done. */
  predicate Settled(d: Duo) {
    && d.toI == [] && d.toJ == []
    && d.i.outbox == [] && d.j.outbox == []
    && d.i.inbound == Ready && d.j.inbound == Ready
    && d.i.pendingPair == None
  }

  lemma KeysAgree(d: Duo)
    requires InSomePhase(d)
    ensures d.i.key.rekeyed && d.j.key.rekeyed ==> d.i.key == d.j.key
    ensures Settled(d) ==> d.i.key == d.j.key
  {
  }
}
