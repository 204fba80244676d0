/**
 What a receiver is promised of genuine frames: the receive counter is never ahead of what has been accepted, so after a
 reconnect or a reload a frame that the peer sealed ahead of all accepted ones is accepted, whatever was lost before it.
 */
module SessionReach {
  import opened Bytes
  import opened Nonce
  import opened Wire
  import opened Channel
  import opened Session
  import opened SessionSafety
  import opened SessionReceive

  function AcceptedBy(e: Endpoint): set<Frame> {
    if e.page.None? then {} else set f | f in e.page.value.accepted
  }

  /** Every frame `r` accepted during the run, in any life of its page. */
  function Ever(events: seq<Event>, r: Role): set<Frame> {
    if events == [] then {} else Ever(events[..|events| - 1], r) + AcceptedBy(Run(events).At(r))
  }

  /** A receive counter is that of a frame accepted under the key, or none has been taken. */
  ghost predicate Reached(ever: set<Frame>, key: Key, recv: nat) {
    recv == 0 || exists f :: f in ever && f.key == key && f.counter == recv
  }

  ghost predicate RecordReached(ever: set<Frame>, store: Option<StoredSession>) {
    store.Some? && !store.value.rekeying ==> Reached(ever, store.value.key, store.value.recv)
  }

  ghost predicate PageReached(ever: set<Frame>, e: Endpoint) {
    && (Live(e) ==> Reached(ever, e.page.value.active.value.key, e.page.value.active.value.recv))
    && AcceptedBy(e) <= ever
  }

  ghost predicate ReachOk(ever: set<Frame>, e: Endpoint) {
    RecordReached(ever, e.store) && PageReached(ever, e)
  }

  lemma ReachGrows(ever: set<Frame>, more: set<Frame>, key: Key, recv: nat)
    requires Reached(ever, key, recv)
    ensures Reached(ever + more, key, recv)
  {
    if recv != 0 {
      var f :| f in ever && f.key == key && f.counter == recv;
      assert f in ever + more;
    }
  }

  /** A page whose key, counter and accepted frames are the same, and a record that is the same or of the counter in use. */
  ghost predicate RecordStep(e: Endpoint, e': Endpoint)
    requires Live(e)
  {
    e'.store.Some? && !e'.store.value.rekeying ==>
      || (e.store.Some? && !e.store.value.rekeying
          && e'.store.value.key == e.store.value.key && e'.store.value.recv == e.store.value.recv)
      || (e'.store.value.key == e.page.value.active.value.key && e'.store.value.recv == e.page.value.active.value.recv)
  }

  lemma SameReaches(ever: set<Frame>, e: Endpoint, e': Endpoint)
    requires Live(e) && ReachOk(ever, e) && RecordStep(e, e') && TallyOf(e') == TallyOf(e)
    ensures ReachOk(ever, e') && AcceptedBy(e') == AcceptedBy(e)
  {
  }

  // ---- the record in every action -------------------------------------------------------------------------------

  lemma MarkRecord(r: Role, e: Endpoint, writable: bool)
    requires Live(e)
    ensures RecordStep(e, Mark(e, writable)) && RecordStep(e, StartRekeyIfInitiator(r, e, writable))
  {
  }

  lemma SendRecord(r: Role, e: Endpoint, connected: bool, writable: bool, mw: bool)
    requires Live(e) && e.page.value.outbox != []
    requires !e.page.value.terminated ==> MirrorOk(e.store, e.page.value.active.value)
    ensures RecordStep(e, RunHead(r, e, connected, writable, mw).e)
  {
    hide RunAfter;
    var p := e.page.value;
    var t := p.outbox[0];
    var popped := e.(page := Some(p.(outbox := p.outbox[1..])));
    AfterRecord(r, popped, t.after, mw);
    var e' := WithActive(popped, Allocate(p.active.value, e.store, t.kind, writable));
    AfterRecord(r, Ended(e'), t.after, mw);
    AfterRecord(r, e', t.after, mw);
  }

  lemma AfterRecord(r: Role, e: Endpoint, after: After, mw: bool)
    requires Live(e)
    ensures forall sent :: RecordStep(e, RunAfter(r, e, after, sent, mw))
  {
    hide StartRekeyIfInitiator;
    MarkRecord(r, e, mw);
  }

  /** A new record is written for the key in use with the counter in use. */
  lemma WrittenRecord(log: seq<Frame>, r: Role, e: Endpoint, ok: bool, writable: bool, n: nat)
    requires Live(e) && EndOk(log, r, e, n)
    ensures RecordStep(e, WriteNewRecord(e, ok, writable))
    ensures RecordStep(e, FinishUpgrade(e, ok, writable))
  {
  }

  lemma QuietRecord(e: Endpoint, ok: bool, kind: RelayKind, data: nat, n: nat)
    requires Live(e)
    ensures EnqueueApp(e, kind, data).store == BeginUpgrade(e).store == FinishKeygen(e, ok, n).e.store == e.store
    ensures DeriveKey(e, ok, n).e.store == SwitchToNewKey(e, ok).store == e.store
  {
  }

  // ---- every event ------------------------------------------------------------------------------------------------

  /** A page that switches keys starts counting anew. */
  lemma SwitchReaches(ever: set<Frame>, e: Endpoint, haveWrapKey: bool)
    requires Live(e) && ReachOk(ever, e)
    ensures ReachOk(ever, SwitchToNewKey(e, haveWrapKey))
  {
    hide RecordReached;
    assert AcceptedBy(SwitchToNewKey(e, haveWrapKey)) == AcceptedBy(e);
  }

  lemma GapReaches(ever: set<Frame>, e: Endpoint)
    requires Live(e) && ReachOk(ever, e)
    ensures ReachOk(ever, OpenGap(e))
  {
    hide RecordReached, Reached;
    assert AcceptedBy(OpenGap(e)) == AcceptedBy(e);
  }

  /** A frame is accepted with its counter. */
  lemma TakenReaches(ever: set<Frame>, e: Endpoint, e': Endpoint, f: Frame)
    requires Live(e) && ReachOk(ever, e) && Live(e') && f.key == e.page.value.active.value.key
    requires TallyOf(e') == Some(Taken(TallyOf(e).value, f))
    requires e'.store.Some? && !e'.store.value.rekeying ==>
      || (e.store.Some? && !e.store.value.rekeying
          && e'.store.value.key == e.store.value.key && e'.store.value.recv == e.store.value.recv)
      || (e'.store.value.key == f.key && e'.store.value.recv == f.counter)
    ensures ReachOk(ever + AcceptedBy(e'), e')
  {
    assert e'.page.value.accepted == e.page.value.accepted + [f];
    assert f in AcceptedBy(e');
    if e.store.Some? && !e.store.value.rekeying {
      ReachGrows(ever, AcceptedBy(e'), e.store.value.key, e.store.value.recv);
    }
  }

  lemma TextRecordStep(e: Endpoint, f: Frame, writable: bool)
    requires Live(e) && MirrorOk(e.store, e.page.value.active.value) && f.key == e.page.value.active.value.key
    ensures var e' := HandleText(e, f, writable);
      || (TallyOf(e') == TallyOf(e) && RecordStep(e, e'))
      || (TallyOf(e') == Some(Taken(TallyOf(e).value, f))
          && (e'.store.Some? && !e'.store.value.rekeying ==> e'.store.value.key == f.key && e'.store.value.recv == f.counter))
  {
  }

  lemma OtherRecord(r: Role, e: Endpoint, f: Frame, writable: bool)
    requires Live(e)
    ensures RecordStep(e, HandleOther(r, e, f, writable))
  {
    hide StartRekeyIfInitiator, Mark;
    match f.kind
    case ModeUpgraded => MarkRecord(r, Learned(e, ModeUpgraded), writable);
    case RekeyInit => MarkRecord(r, e.(page := Some(e.page.value.(rekeyInFlight := true))), writable);
    case _ =>
  }

  lemma HandleReaches(r: Role, ever: set<Frame>, e: Endpoint, f: Frame, wellFormed: bool, writable: bool)
    requires Live(e) && ReachOk(ever, e) && MirrorOk(e.store, e.page.value.active.value)
    requires f.key == e.page.value.active.value.key
    ensures ReachOk(ever + AcceptedBy(Handle(r, e, f, wellFormed, writable)), Handle(r, e, f, wellFormed, writable))
  {
    hide HandleText, HandleOther, ReachOk;
    if f.kind != Msg {
      var p := e.page.value;
      var noted := e.(page := Some(p.(active := Some(p.active.value.(recv := f.counter)), accepted := p.accepted + [f])));
      assert TallyOf(noted) == Some(Taken(TallyOf(e).value, f));
      TakenReaches(ever, e, noted, f);
      OtherRecord(r, noted, f, writable);
      OtherKeepsTally(r, noted, f, writable);
      SameReaches(ever + AcceptedBy(noted), noted, HandleOther(r, noted, f, writable));
    } else if wellFormed {
      TextRecordStep(e, f, writable);
      var e' := HandleText(e, f, writable);
      if TallyOf(e') == TallyOf(e) && RecordStep(e, e') {
        SameReaches(ever, e, e');
        Absorbs(ever, e, e');
      } else {
        TakenReaches(ever, e, e', f);
      }
    } else {
      SameReaches(ever, e, Ended(e));
      Absorbs(ever, e, Ended(e));
    }
  }

  lemma Absorbs(ever: set<Frame>, e: Endpoint, e': Endpoint)
    requires ReachOk(ever, e')
    ensures ReachOk(ever + AcceptedBy(e'), e')
  {
    assert ever + AcceptedBy(e') == ever;
  }

  lemma DeliverReaches(log: seq<Frame>, r: Role, ever: set<Frame>, e: Endpoint, action: Action)
    requires Live(e) && ReachOk(ever, e) && MirrorOk(e.store, e.page.value.active.value) && action.Deliver?
    ensures ReachOk(ever + AcceptedBy(DeliverTo(r, e, log, action)), DeliverTo(r, e, log, action))
  {
    hide Handle, Validate;
    var p := e.page.value;
    var a := p.active.value;
    ValidateMeaning(log, r, a, action.kind, action.nonce, action.box);
    var taken := e.(page := Some(p.(active := Some(a.(mode := Strict)))));
    assert AcceptedBy(taken) == AcceptedBy(Ended(taken)) == AcceptedBy(e);
    match Validate(log, r, a, action.kind, action.nonce, action.box)
    case Opened(f) => HandleReaches(r, ever, taken, f, action.wellFormed, action.writable);
    case _ => Absorbs(ever, e, Ended(taken));
  }

  lemma LiveReaches(log: seq<Frame>, r: Role, ever: set<Frame>, e: Endpoint, action: Action, n: nat)
    requires Live(e) && ReachOk(ever, e) && EndOk(log, r, e, n)
    ensures var e' := ActLive(r, e, action, log, n).e; ReachOk(ever + AcceptedBy(e'), e')
  {
    hide EndOk, ReachOk, RunHead, DeliverTo, EnqueueApp, BeginUpgrade, FinishUpgrade, FinishKeygen, DeriveKey;
    hide SwitchToNewKey, WriteNewRecord, AcceptedBy, MirrorOk, OpenGap;
    EndMirror(log, r, e, n);
    var e' := ActLive(r, e, action, log, n).e;
    if action.Deliver? && !e.page.value.terminated && e.page.value.inbound == Ready {
      DeliverReaches(log, r, ever, e, action);
    } else {
      match action {
      case RunTask(connected, writable, mw) =>
        if e.page.value.outbox != [] {
          SendRecord(r, e, connected, writable, mw);
          SendKeepsTally(r, e, connected, writable, mw);
          SameReaches(ever, e, e');
        }
      case Keygen(ok) =>
        QuietRecord(e, ok, Msg, 0, n);
        RekeyKeepsTally(e, ok, false, n);
        SameReaches(ever, e, e');
      case Derive(ok) =>
        QuietRecord(e, ok, Msg, 0, n);
        DeriveKeepsTally(e, ok, n);
        SameReaches(ever, e, e');
      case CommitSwitch(haveWrapKey) => SwitchReaches(ever, e, haveWrapKey);
      case CommitWrite(wrapOk, writable) =>
        WrittenRecord(log, r, e, wrapOk, writable, n);
        RekeyKeepsTally(e, wrapOk, writable, n);
        SameReaches(ever, e, e');
      case UpgradePersist(wrapOk, writable) =>
        WrittenRecord(log, r, e, wrapOk, writable, n);
        LocalKeepsTally(e, action, n);
        SameReaches(ever, e, e');
      case Enqueue(kind, data) =>
        QuietRecord(e, true, kind, data, n);
        LocalKeepsTally(e, action, n);
        SameReaches(ever, e, e');
      case UpgradeStart =>
        QuietRecord(e, true, Msg, 0, n);
        LocalKeepsTally(e, action, n);
        SameReaches(ever, e, e');
      case AllowGap => GapReaches(ever, e);
      case _ => PlainReaches(log, r, ever, e, action, n);
      }
      Absorbs(ever, e, e');
    }
  }

  lemma EndMirror(log: seq<Frame>, r: Role, e: Endpoint, n: nat)
    requires Live(e) && EndOk(log, r, e, n)
    ensures !e.page.value.terminated ==> MirrorOk(e.store, e.page.value.active.value)
  {
  }

  lemma PlainReaches(log: seq<Frame>, r: Role, ever: set<Frame>, e: Endpoint, action: Action, n: nat)
    requires Live(e) && ReachOk(ever, e)
    requires || action.Boot? || action.Crash? || action.Terminate? || action.FinalizeTermination? || action.Handshake?
             || (action.Deliver? && (e.page.value.terminated || e.page.value.inbound != Ready))
    ensures ReachOk(ever, ActLive(r, e, action, log, n).e)
  {
    hide Reached;
    assert AcceptedBy(Ended(e)) == AcceptedBy(e);
  }

  lemma StartReaches(log: seq<Frame>, r: Role, ever: set<Frame>, e: Endpoint, action: Action, n: nat)
    requires !Live(e) && ReachOk(ever, e) && EndOk(log, r, e, n)
    ensures var e' := Act(r, e, action, log, n).e; ReachOk(ever, e')
  {
    hide ActLive;
    if e.page.Some? {
      NothingAcceptedYet(log, r, e, n);
    }
    var e' := Act(r, e, action, log, n).e;
    assert e'.page.Some? ==> e'.page.value.accepted == [];
    assert AcceptedBy(e') == {};
  }

  lemma {:induction false} RunReaches(events: seq<Event>, r: Role)
    ensures ReachOk(Ever(events, r), Run(events).At(r))
  {
    hide Act, Step, ReachOk, Inv, AcceptedBy;
    if events == [] {
      NothingReached(r);
    } else {
      var n := |events| - 1;
      var w, ev := Run(events[..n]), events[n];
      RunReaches(events[..n], r);
      RunKept(events[..n]);
      StepAtEnd(w, ev);
      EndsOk(w, r);
      if ev.role == r {
        ActReaches(w, ev, Ever(events[..n], r));
      } else {
        assert r == ev.role.Peer();
        Absorbs(Ever(events[..n], r), w.At(r), w.At(r));
      }
    }
  }

  lemma ActReaches(w: World, ev: Event, ever: set<Frame>)
    requires ReachOk(ever, w.At(ev.role)) && EndOk(w.log, ev.role, w.At(ev.role), w.nextPair)
    ensures var e' := Act(ev.role, w.At(ev.role), ev.action, w.log, w.nextPair).e; ReachOk(ever + AcceptedBy(e'), e')
  {
    hide ActLive, ActOffline, ActBeforeActive, ReachOk, EndOk, AcceptedBy;
    var e := w.At(ev.role);
    if Live(e) {
      LiveReaches(w.log, ev.role, ever, e, ev.action, w.nextPair);
    } else {
      StartReaches(w.log, ev.role, ever, e, ev.action, w.nextPair);
      Absorbs(ever, e, Act(ev.role, e, ev.action, w.log, w.nextPair).e);
    }
  }

  lemma NothingReached(r: Role)
    ensures ReachOk({}, Start.At(r))
  {
  }

  // ---- the promise ------------------------------------------------------------------------------------------------

  /** A live page that goes on, with nothing being handled, under the key `key`. */
  ghost predicate Listening(e: Endpoint, key: Key) {
    Live(e) && !e.page.value.terminated && e.page.value.inbound == Ready && e.page.value.active.value.key == key
  }

  /** `f` is ahead of everything `r` has accepted under its key. */
  ghost predicate Ahead(events: seq<Event>, r: Role, f: Frame) {
    forall g | g in Ever(events, r) && g.key == f.key :: g.counter < f.counter
  }

  ghost predicate TakesIt(e: Endpoint, e': Endpoint, f: Frame) {
    && Live(e) && Live(e') && !e'.page.value.terminated
    && e'.page.value.accepted == e.page.value.accepted + [f]
    && e'.page.value.active.value.mode == Strict
  }

  /**
   After a reconnect, or as the first frame after a reload, a text or chunk that the peer has sealed under the page's
   key ahead of everything accepted under it is accepted, however many frames before it were lost.
   */
  lemma AGenuineFrameAheadIsAccepted(events: seq<Event>, r: Role, f: Frame, nonce: NonceBytes)
    requires var w := Run(events); Listening(w.At(r), f.key) && w.At(r).page.value.active.value.mode == FirstGapAllowed
    requires f in Run(events).log && f.sender == r.Peer() && (f.kind == Msg || f.kind == Chunk)
    requires NonceOf(f) == Some(nonce) && Ahead(events, r, f)
    ensures TakesIt(Run(events).At(r), Step(Run(events), Event(r, Deliver(f.kind, nonce, Sealed(f), true, true))).At(r), f)
  {
    RunReaches(events, r);
    RunKept(events);
    var w := Run(events);
    hide Run;
    CounterPositive(w, f);
    var a := w.At(r).page.value.active.value;
    assert a.recv < f.counter by {
      if a.recv != 0 {
        var g :| g in Ever(events, r) && g.key == a.key && g.counter == a.recv;
      }
    }
    DeliveredIsTaken(w, r, f, nonce);
  }

  lemma CounterPositive(w: World, f: Frame)
    requires Inv(w) && f in w.log
    ensures f.counter >= 1
  {
  }

  lemma DeliveredIsTaken(w: World, r: Role, f: Frame, nonce: NonceBytes)
    requires Listening(w.At(r), f.key) && w.At(r).page.value.active.value.mode == FirstGapAllowed
    requires w.At(r).page.value.active.value.recv < f.counter
    requires f in w.log && f.sender == r.Peer() && (f.kind == Msg || f.kind == Chunk) && NonceOf(f) == Some(nonce)
    ensures TakesIt(w.At(r), Step(w, Event(r, Deliver(f.kind, nonce, Sealed(f), true, true))).At(r), f)
  {
    ValidateMeaning(w.log, r, w.At(r).page.value.active.value, f.kind, nonce, Sealed(f));
    hide Validate;
  }

  /** A reconnect and a reload allow one gap. */
  lemma AGapIsAllowed(events: seq<Event>, r: Role)
    ensures var w := Run(events);
      Live(w.At(r)) ==>
        && Live(Step(w, Event(r, AllowGap)).At(r))
        && Step(w, Event(r, AllowGap)).At(r).page.value.active.value.mode == FirstGapAllowed
    ensures var w := Run(events);
      w.At(r).page.None? && w.At(r).store.Some? && !w.At(r).store.value.rekeying ==>
        var e' := Step(w, Event(r, Boot(true))).At(r);
        Listening(e', w.At(r).store.value.key) && e'.page.value.active.value.mode == FirstGapAllowed
  {
    hide Run;
  }
}
