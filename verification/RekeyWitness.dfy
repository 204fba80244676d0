/**
 Concrete rides: one that ends with both sides on the new key, and for either side one that has it inside its window,
 so that the session can end there.
 */
module RekeyWitness {
  import opened Bytes
  import opened Nonce
  import opened Wire
  import opened Channel
  import opened Session
  import opened RekeyFifo
  import opened RekeyRefinement
  import opened RekeyRides
  import opened RekeyProgress
  import opened RekeyWindow

  // ---- the stages of one rekey ------------------------------------------------------------------------

  const OldKey := Key(0, 1, false)
  const NewKey := Key(2, 3, true)

  const Fresh := FreshSide

  const DoneTask := Task(RekeyDone, Nothing, Done)

  function FromI(counter: nat, kind: RelayKind, payload: Payload): Frame {
    Frame(OldKey, Initiator, counter, kind, payload)
  }

  function FromJ(counter: nat, kind: RelayKind, payload: Payload): Frame {
    Frame(OldKey, Joiner, counter, kind, payload)
  }

  /** The joiner has upgraded and said so. */
  const Told := Duo(Fresh.(recv := 1, peerPrf := true), Fresh.(committed := 1, localPrf := true), [], [], 2)

  /** The initiator has upgraded and sent its REKEY_INIT. */
  const InitSent :=
    Duo(Fresh.(committed := 2, recv := 1, localPrf := true, peerPrf := true, rekeyInFlight := true,
               pendingPair := Some(2)),
        Told.j,
        [FromI(1, ModeUpgraded, Nothing), FromI(2, RekeyInit, PublicKey(2))], [], 3)

  /** The joiner has sent its REKEY_ACK. */
  const AckSent :=
    Duo(InitSent.i,
        Fresh.(committed := 2, recv := 2, localPrf := true, peerPrf := true, rekeyInFlight := true,
               inbound := CommitNext(NewKey)),
        [], [FromJ(2, RekeyAck, PublicKey(3))], 4)

  /** The joiner has committed. */
  const JoinerSwitched :=
    AckSent.(j := Fresh.(key := NewKey, localPrf := true, peerPrf := true, outbox := [DoneTask]))

  /** Both have committed. */
  const BothSwitched :=
    JoinerSwitched.(i := Fresh.(key := NewKey, localPrf := true, peerPrf := true, outbox := [DoneTask]), toI := [])

  const TellMoves := [Move.UpgradeStart(Joiner), Move.UpgradePersist(Joiner)] + [Send(Joiner), Move.Deliver(Initiator)]
  const StartMoves :=
    [Move.UpgradeStart(Initiator), Move.UpgradePersist(Initiator)] + [Send(Initiator), Move.Keygen(Initiator)]
  const AnswerMoves := [Move.Deliver(Joiner), Move.Deliver(Joiner)] + [Move.Derive(Joiner), Send(Joiner)]
  const JoinerMoves := [Move.CommitSwitch(Joiner, true), Move.CommitWrite(Joiner)]
  const InitiatorMoves :=
    [Move.Deliver(Initiator), Move.Derive(Initiator)] + [Move.CommitSwitch(Initiator, true), Move.CommitWrite(Initiator)]

  /** Two moves with the duo between them and the duo after them. */
  lemma Pair(d: Duo, a: Move, mid: Duo, b: Move, d': Duo)
    requires Smooth(d, a) && Play(d, a) == mid && Smooth(mid, b) && Play(mid, b) == d'
    ensures Leads(d, [a, b], d')
  {
    hide Play, Smooth, Leads;
    LeadsTwo(d, a, b);
  }

  const Begin := Duo(Fresh, Fresh, [], [], 2)

  const AnnounceTask := Task(ModeUpgraded, Nothing, MaybeRekey)

  const JoinerUpgraded := Begin.(j := Fresh.(localPrf := true, outbox := [AnnounceTask]))

  lemma JoinerUpgrades()
    ensures Leads(Begin, [Move.UpgradeStart(Joiner), Move.UpgradePersist(Joiner)], JoinerUpgraded)
  {
    hide Leads, SmoothAll, PlayAll, DeriveSide, SwitchSide, KeygenSide, Take, Sent, SentFrame;
    var mid := Begin.(j := Fresh.(upgrading := true));
    assert Play(Begin, Move.UpgradeStart(Joiner)) == mid;
    assert Play(mid, Move.UpgradePersist(Joiner)) == JoinerUpgraded;
    hide Play, Alone;
    Pair(Begin, Move.UpgradeStart(Joiner), mid, Move.UpgradePersist(Joiner), JoinerUpgraded);
  }

  lemma JoinerAnnounces()
    ensures Leads(JoinerUpgraded, [Send(Joiner), Move.Deliver(Initiator)], Told)
  {
    hide Leads, SmoothAll, PlayAll;
    Pair(JoinerUpgraded, Send(Joiner), Begin.(j := Told.j, toI := [FromJ(1, ModeUpgraded, Nothing)]),
         Move.Deliver(Initiator), Told);
  }

  const InitiatorUpgraded := Told.(i := Told.i.(localPrf := true, outbox := [AnnounceTask]))

  lemma InitiatorUpgrades()
    ensures Leads(Told, [Move.UpgradeStart(Initiator), Move.UpgradePersist(Initiator)], InitiatorUpgraded)
  {
    hide Leads, SmoothAll, PlayAll, DeriveSide, SwitchSide, KeygenSide, Take, Sent, SentFrame;
    var mid := Told.(i := Told.i.(upgrading := true));
    assert Play(Told, Move.UpgradeStart(Initiator)) == mid;
    assert Play(mid, Move.UpgradePersist(Initiator)) == InitiatorUpgraded;
    hide Play, Alone;
    Pair(Told, Move.UpgradeStart(Initiator), mid, Move.UpgradePersist(Initiator), InitiatorUpgraded);
  }

  const KeyMade := Told.(
    i := Told.i.(localPrf := true, committed := 1, rekeyInFlight := true, pendingPair := Some(2),
                 outbox := [Task(RekeyInit, PublicKey(2), Done)]),
    toJ := [FromI(1, ModeUpgraded, Nothing)], next := 3)

  lemma InitiatorStarts()
    ensures Leads(InitiatorUpgraded, [Send(Initiator), Move.Keygen(Initiator)], KeyMade)
  {
    hide Leads, SmoothAll, PlayAll;
    Pair(InitiatorUpgraded, Send(Initiator),
         Told.(i := Told.i.(localPrf := true, committed := 1, rekeyInFlight := true, keygen := true),
               toJ := [FromI(1, ModeUpgraded, Nothing)]),
         Move.Keygen(Initiator), KeyMade);
  }

  lemma InitiatorAsks()
    ensures Leads(KeyMade, [Send(Initiator)], InitSent)
  {
    hide Leads, SmoothAll, PlayAll;
    assert Play(KeyMade, Send(Initiator)) == InitSent;
    LeadsOne(KeyMade, Send(Initiator));
  }

  /** The joiner has taken the REKEY_INIT. */
  const InitTaken :=
    InitSent.(j := Told.j.(recv := 2, peerPrf := true, rekeyInFlight := true, inbound := JoinerDerive(2)), toJ := [])

  lemma JoinerTakes()
    ensures Leads(InitSent, [Move.Deliver(Joiner), Move.Deliver(Joiner)], InitTaken)
  {
    hide Leads, SmoothAll, PlayAll;
    var mid := InitSent.(j := Told.j.(recv := 1, peerPrf := true, rekeyInFlight := true),
                               toJ := [FromI(2, RekeyInit, PublicKey(2))]);
    assert InitSent.toJ[1..] == mid.toJ && mid.toJ[1..] == [];
    Pair(InitSent, Move.Deliver(Joiner), mid, Move.Deliver(Joiner), InitTaken);
  }

  lemma JoinerAnswers()
    ensures Leads(InitTaken, [Move.Derive(Joiner), Send(Joiner)], AckSent)
  {
    hide Leads, SmoothAll, PlayAll;
    var ack := Task(RekeyAck, PublicKey(3), Commit(NewKey));
    Pair(InitTaken, Move.Derive(Joiner),
         InitTaken.(j := InitTaken.j.(inbound := AwaitAckSent, outbox := [ack]), next := 4),
         Send(Joiner), AckSent);
  }

  lemma JoinerSwitches()
    ensures Leads(AckSent, JoinerMoves, JoinerSwitched)
  {
    hide Leads, SmoothAll, PlayAll;
    var d := AckSent;
    Pair(d, Move.CommitSwitch(Joiner, true),
         d.(j := d.j.(key := NewKey, committed := 0, recv := 0, inbound := CommitPersist(NewKey))),
         Move.CommitWrite(Joiner), JoinerSwitched);
  }

  /** The initiator has derived the new key. */
  const AckTaken :=
    JoinerSwitched.(
      i := JoinerSwitched.i.(recv := 2, pendingPair := None, inbound := CommitNext(NewKey)), toI := [])

  lemma InitiatorTakes()
    ensures Leads(JoinerSwitched, [Move.Deliver(Initiator), Move.Derive(Initiator)], AckTaken)
  {
    hide Leads, SmoothAll, PlayAll;
    var d := JoinerSwitched;
    assert d.toI[1..] == [];
    Pair(d, Move.Deliver(Initiator), d.(i := d.i.(recv := 2, inbound := InitiatorDerive(3)), toI := []),
         Move.Derive(Initiator), AckTaken);
  }

  lemma InitiatorSwitches()
    ensures Leads(AckTaken, [Move.CommitSwitch(Initiator, true), Move.CommitWrite(Initiator)], BothSwitched)
  {
    hide Leads, SmoothAll, PlayAll;
    var d := AckTaken;
    Pair(d, Move.CommitSwitch(Initiator, true),
         d.(i := d.i.(key := NewKey, committed := 0, recv := 0, inbound := CommitPersist(NewKey))),
         Move.CommitWrite(Initiator), BothSwitched);
  }

  // ---- a whole rekey ------------------------------------------------------------------------------------

  const AskMoves := TellMoves + StartMoves + [Send(Initiator)]
  const AckedMoves := AskMoves + AnswerMoves
  const RekeyMoves := AckedMoves + JoinerMoves + InitiatorMoves

  lemma Asks()
    ensures Leads(Begin, AskMoves, InitSent)
  {
    hide Leads;
    JoinerUpgrades();
    JoinerAnnounces();
    LeadsOn(Begin, [Move.UpgradeStart(Joiner), Move.UpgradePersist(Joiner)], JoinerUpgraded,
            [Send(Joiner), Move.Deliver(Initiator)], Told);
    InitiatorUpgrades();
    InitiatorStarts();
    LeadsOn(Told, [Move.UpgradeStart(Initiator), Move.UpgradePersist(Initiator)], InitiatorUpgraded,
            [Send(Initiator), Move.Keygen(Initiator)], KeyMade);
    InitiatorAsks();
    LeadsOn(Begin, TellMoves, Told, StartMoves, KeyMade);
    LeadsOn(Begin, TellMoves + StartMoves, KeyMade, [Send(Initiator)], InitSent);
  }

  lemma Answers()
    ensures Leads(InitSent, AnswerMoves, AckSent)
  {
    hide Leads;
    JoinerTakes();
    JoinerAnswers();
    LeadsOn(InitSent, [Move.Deliver(Joiner), Move.Deliver(Joiner)], InitTaken,
            [Move.Derive(Joiner), Send(Joiner)], AckSent);
  }

  lemma Finishes()
    ensures Leads(AckSent, JoinerMoves + InitiatorMoves, BothSwitched)
  {
    hide Leads;
    JoinerSwitches();
    InitiatorTakes();
    InitiatorSwitches();
    LeadsOn(JoinerSwitched, [Move.Deliver(Initiator), Move.Derive(Initiator)], AckTaken,
            [Move.CommitSwitch(Initiator, true), Move.CommitWrite(Initiator)], BothSwitched);
    LeadsOn(AckSent, JoinerMoves, JoinerSwitched, InitiatorMoves, BothSwitched);
  }

  lemma FreshIsBegin()
    ensures LineSound(FreshLine()) && DuoOf(FreshLine()) == Begin
  {
    hide FreshLine, LineSound, DuoOf;
    FreshDuo();
  }

  lemma RideLeads(moves: seq<Move>, d: Duo)
    requires Leads(Begin, moves, d)
    ensures BothLive(Ride(moves)) && DuoOf(Ride(moves)) == d
  {
    FreshIsBegin();
    RideIsGoAll(moves);
    hide Ride;
    SmoothGoAll(FreshLine(), moves);
  }

  const Switched := Fresh.(key := NewKey, localPrf := true, peerPrf := true)

  /** Both sides' REKEY_DONE have arrived. */
  const AllDone := Duo(Switched.(committed := 1, recv := 1), Switched.(committed := 1, recv := 1), [], [], 4)

  lemma BothSayDone()
    ensures Leads(BothSwitched, [Send(Initiator), Send(Joiner)] + [Move.Deliver(Initiator), Move.Deliver(Joiner)], AllDone)
  {
    hide Leads, SmoothAll, PlayAll;
    var d := BothSwitched;
    var fromI, fromJ := Frame(NewKey, Initiator, 1, RekeyDone, Nothing), Frame(NewKey, Joiner, 1, RekeyDone, Nothing);
    var said := d.(i := Switched.(committed := 1), j := Switched.(committed := 1), toJ := [fromI], toI := [fromJ]);
    Pair(d, Send(Initiator), d.(i := Switched.(committed := 1), toJ := [fromI]), Send(Joiner), said);
    Pair(said, Move.Deliver(Initiator), said.(i := AllDone.i, toI := []), Move.Deliver(Joiner), AllDone);
    LeadsOn(d, [Send(Initiator), Send(Joiner)], said, [Move.Deliver(Initiator), Move.Deliver(Joiner)], AllDone);
  }

  lemma DoneStaysStill(r: Role, e: Endpoint, action: Action, log: seq<Frame>, n: nat)
    requires EndFine(e) && SideOf(e) == AllDone.i
    requires || action.RunTask? || action.UpgradePersist? || action.Keygen? || action.Derive?
             || action.CommitSwitch? || action.CommitWrite?
    ensures Act(r, e, action, log, n) == Still(e)
  {
    assert e.page.value.outbox == [];
  }

  lemma StillStep(w: World, r: Role, action: Action)
    requires Act(r, w.At(r), action, w.log, w.nextPair) == Still(w.At(r))
    ensures Step(w, Event(r, action)) == w
  {
    hide Act;
  }

  lemma AllDoneRests(l: Line)
    requires LineSound(l) && DuoOf(l) == AllDone
    ensures Resting(l)
  {
    forall m: Move | !m.Enqueue? && !m.UpgradeStart?
      ensures Go(l, m) == l
    {
      LineFacts(l);
      assert SideOf(l.w.At(m.role)) == AllDone.i;
      hide Act, Step, SideOf;
      if ActionFor(l, m).Some? {
        var action := ActionFor(l, m).value;
        DoneStaysStill(m.role, l.w.At(m.role), action, l.w.log, l.w.nextPair);
        StillStep(l.w, m.role, action);
      }
    }
  }

  const WholeRekey :=
    RekeyMoves + ([Send(Initiator), Send(Joiner)] + [Move.Deliver(Initiator), Move.Deliver(Joiner)])

  lemma AllDoneIsRekeyed(l: Line)
    requires LineSound(l) && DuoOf(l) == AllDone
    ensures ComesToRest(l) && OnOneNewKey(l)
  {
    AllDoneRests(l);
    hide Resting;
    assert SideOf(l.w.initiator) == AllDone.i && SideOf(l.w.joiner) == AllDone.j;
  }

  /** There is a ride that ends at rest with both sides on the new key. */
  lemma SomeRideRekeys()
    ensures exists moves :: ComesToRest(Ride(moves)) && OnOneNewKey(Ride(moves))
  {
    hide Leads, Ride, LineSound, ComesToRest, OnOneNewKey, DuoOf;
    Asks();
    Answers();
    Finishes();
    BothSayDone();
    LeadsOn(Begin, AskMoves, InitSent, AnswerMoves, AckSent);
    LeadsOn(Begin, AckedMoves, AckSent, JoinerMoves + InitiatorMoves, BothSwitched);
    assert AckedMoves + (JoinerMoves + InitiatorMoves) == RekeyMoves;
    LeadsOn(Begin, RekeyMoves, BothSwitched,
            [Send(Initiator), Send(Joiner)] + [Move.Deliver(Initiator), Move.Deliver(Joiner)], AllDone);
    RideLeads(WholeRekey, AllDone);
    RideLives(WholeRekey);
    AllDoneIsRekeyed(Ride(WholeRekey));
  }

  // ---- inside the window ----------------------------------------------------------------------------------

  function BeforeSlip(r: Role): seq<Move> {
    if r == Initiator then AskMoves else AckedMoves
  }

  /** Either side gets inside its window, with counters left. */
  lemma SomeRideIsInTheWindow(r: Role)
    ensures var l := Ride(BeforeSlip(r)); BothLive(l) && CountersLeft(DuoOf(l)) && InWindow(SideOf(l.w.At(r)))
  {
    hide Leads, Ride, LineSound, DuoOf, SideOf;
    Asks();
    Answers();
    LeadsOn(Begin, AskMoves, InitSent, AnswerMoves, AckSent);
    RideLeads(BeforeSlip(r), if r == Initiator then InitSent else AckSent);
    RideLives(BeforeSlip(r));
    SidesOf(Ride(BeforeSlip(r)));
  }

  /** So for either side there is a ride in which one frame that it queues ends the other side's session. */
  lemma ASlipEndsTheSession(r: Role, a: AppFrame)
    requires IsApp(a)
    ensures exists before, after :: QueuesNothing(after) && SlipEnds(before, r, a, after, r.Peer())
  {
    hide Ride, SideOf, DuoOf, InWindow, CountersLeft, BeforeSlip, SlipEnds, QueuesNothing;
    SomeRideIsInTheWindow(r);
    var after := InsideEnds(BeforeSlip(r), r, a);
    assert QueuesNothing(after) && SlipEnds(BeforeSlip(r), r, a, after, r.Peer());
  }
}
