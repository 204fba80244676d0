/**
 Texts across the lives of a page: a text that a page has accepted is accepted by no later page of the same end, for
 the stored receive counter that startup resumes from covers every text accepted under the stored key.
 */
module SessionTexts {
  import opened Bytes
  import opened Nonce
  import opened Wire
  import opened Channel
  import opened Session
  import opened SessionSafety

  /** A text and the life of the page that accepted it; a page's own pair tells its life from every other. */
  type Hearing = (nat, Frame)

  function TextsOf(e: Endpoint): set<Hearing> {
    if e.page.None? then {}
    else set f | f in e.page.value.accepted && f.kind == Msg :: (e.page.value.own, f)
  }

  /** Every text `r` accepted during the run, with the life in which it did. */
  function Heard(events: seq<Event>, r: Role): set<Hearing> {
    if events == [] then {} else Heard(events[..|events| - 1], r) + TextsOf(Run(events).At(r))
  }

  // ---- the invariant ------------------------------------------------------------------------------------------

  ghost predicate HeardUpTo(heard: set<Hearing>, key: Key, bound: nat) {
    forall h | h in heard && h.1.key == key :: h.1.counter <= bound
  }

  ghost predicate NoneUnder(heard: set<Hearing>, key: Key) {
    forall h | h in heard :: h.1.key != key
  }

  ghost predicate NoneWith(heard: set<Hearing>, pair: nat) {
    forall h | h in heard :: !Mentions(h.1.key, pair)
  }

  /** A record that startup would resume is as far as every text heard under its key. */
  ghost predicate RecordCovers(heard: set<Hearing>, store: Option<StoredSession>) {
    store.Some? && !store.value.rekeying ==> HeardUpTo(heard, store.value.key, store.value.recv)
  }

  ghost predicate LiveCovers(heard: set<Hearing>, p: Page, a: Active) {
    && HeardUpTo(heard, a.key, a.recv)
    && (p.pendingPair.Some? ==> NoneWith(heard, p.pendingPair.value))
    && (p.inbound.CommitNext? ==> NoneUnder(heard, p.inbound.key))
    && (forall i :: 0 <= i < |p.outbox| && p.outbox[i].after.Commit? ==> NoneUnder(heard, p.outbox[i].after.key))
  }

  ghost predicate PageCovers(heard: set<Hearing>, e: Endpoint) {
    e.page.Some? ==>
      if e.page.value.active.Some? then LiveCovers(heard, e.page.value, e.page.value.active.value)
      else NoneWith(heard, e.page.value.own)
  }

  ghost predicate KeysKnown(heard: set<Hearing>, nextPair: nat) {
    forall h | h in heard :: Known(h.1.key, nextPair)
  }

  ghost predicate OneLifeEach(heard: set<Hearing>) {
    forall h, g | h in heard && g in heard && h.1 == g.1 :: h.0 == g.0
  }

  ghost predicate HeardOk(heard: set<Hearing>, e: Endpoint, nextPair: nat) {
    && KeysKnown(heard, nextPair)
    && OneLifeEach(heard)
    && RecordCovers(heard, e.store)
    && PageCovers(heard, e)
    && TextsOf(e) <= heard
  }

  // ---- every action keeps it ----------------------------------------------------------------------------------

  /** What an action that accepts no text leaves to be shown. */
  ghost predicate StillCovers(heard: set<Hearing>, e: Endpoint) {
    RecordCovers(heard, e.store) && PageCovers(heard, e) && TextsOf(e) <= heard
  }

  /** What is promised of a live page depends on little of it. */
  lemma Carries(heard: set<Hearing>, e: Endpoint, e': Endpoint)
    requires Live(e) && Live(e') && StillCovers(heard, e) && e'.store == e.store
    requires var p, p' := e.page.value, e'.page.value;
      && p'.own == p.own && p'.accepted == p.accepted && p'.pendingPair == p.pendingPair
      && p'.active.value.key == p.active.value.key && p'.active.value.recv == p.active.value.recv
      && (p'.inbound == p.inbound || !p'.inbound.CommitNext?)
      && p'.outbox == p.outbox
    ensures StillCovers(heard, e')
  {
    assert TextsOf(e') == TextsOf(e);
  }

  lemma OfflineCovers(heard: set<Hearing>, e: Endpoint, action: Action, n: nat)
    requires e.page.None? && HeardOk(heard, e, n)
    ensures StillCovers(heard, ActOffline(e, action, n).e)
  {
  }

  lemma BeforeActiveCovers(log: seq<Frame>, r: Role, heard: set<Hearing>, e: Endpoint, action: Action, n: nat)
    requires e.page.Some? && e.page.value.active.None? && HeardOk(heard, e, n) && EndOk(log, r, e, n)
    ensures StillCovers(heard, ActBeforeActive(e, action, n).e)
  {
  }

  /** Marking the record leaves its counters, and one that carries the marker is not resumed. */
  lemma MarkCovers(heard: set<Hearing>, e: Endpoint, writable: bool)
    requires Live(e) && StillCovers(heard, e)
    ensures StillCovers(heard, Mark(e, writable))
  {
  }

  lemma MarkKeepsLive(e: Endpoint, writable: bool)
    requires Live(e)
    ensures Live(Mark(e, writable))
  {
  }

  lemma StartRekeyCovers(r: Role, heard: set<Hearing>, e: Endpoint, writable: bool)
    requires Live(e) && StillCovers(heard, e)
    ensures StillCovers(heard, StartRekeyIfInitiator(r, e, writable))
  {
    hide StillCovers, Mark;
    var p := e.page.value;
    if !p.terminated && !p.rekeyInFlight {
      var e1 := e.(page := Some(p.(rekeyInFlight := true)));
      Carries(heard, e, e1);
      MarkCovers(heard, e1, writable);
      var e2 := Mark(e1, writable);
      MarkKeepsLive(e1, writable);
      Carries(heard, e2, e2.(page := Some(e2.page.value.(keygen := true))));
    }
  }

  lemma AfterCovers(r: Role, heard: set<Hearing>, e: Endpoint, after: After, sent: bool, mw: bool)
    requires Live(e) && StillCovers(heard, e)
    requires after.Commit? ==> NoneUnder(heard, after.key)
    ensures StillCovers(heard, RunAfter(r, e, after, sent, mw))
  {
    hide StartRekeyIfInitiator, RecordCovers, HeardUpTo, NoneWith, NoneUnder;
    StartRekeyCovers(r, heard, e, mw);
  }

  /** Reserving counters writes the receive counter that was stored. */
  lemma AllocateCovers(heard: set<Hearing>, e: Endpoint, kind: RelayKind, writable: bool)
    requires Live(e) && StillCovers(heard, e) && MirrorOk(e.store, e.page.value.active.value)
    ensures var o := Allocate(e.page.value.active.value, e.store, kind, writable);
      StillCovers(heard, WithActive(e, o)) && StillCovers(heard, Ended(WithActive(e, o)))
  {
  }

  lemma PopCovers(heard: set<Hearing>, e: Endpoint)
    requires Live(e) && StillCovers(heard, e) && e.page.value.outbox != []
    ensures StillCovers(heard, e.(page := Some(e.page.value.(outbox := e.page.value.outbox[1..]))))
    ensures e.page.value.outbox[0].after.Commit? ==> NoneUnder(heard, e.page.value.outbox[0].after.key)
  {
  }

  lemma SendCovers(log: seq<Frame>, r: Role, heard: set<Hearing>, e: Endpoint, connected: bool, writable: bool,
                   mw: bool, n: nat)
    requires Live(e) && StillCovers(heard, e) && EndOk(log, r, e, n) && e.page.value.outbox != []
    ensures StillCovers(heard, RunHead(r, e, connected, writable, mw).e)
  {
    hide RunAfter, StillCovers, NoneUnder, Allocate, MirrorOk;
    var p := e.page.value;
    var t := p.outbox[0];
    var popped := e.(page := Some(p.(outbox := p.outbox[1..])));
    PopCovers(heard, e);
    if p.terminated || !connected {
      AfterCovers(r, heard, popped, t.after, false, mw);
    } else {
      assert MirrorOk(e.store, p.active.value);
      AllocateCovers(heard, popped, t.kind, writable);
      var e' := WithActive(popped, Allocate(p.active.value, e.store, t.kind, writable));
      AfterCovers(r, heard, Ended(e'), t.after, false, mw);
      AfterCovers(r, heard, e', t.after, true, mw);
    }
  }

  lemma KeygenCovers(heard: set<Hearing>, e: Endpoint, ok: bool, n: nat)
    requires Live(e) && StillCovers(heard, e) && KeysKnown(heard, n)
    ensures StillCovers(heard, FinishKeygen(e, ok, n).e)
  {
  }

  /** A key agreed from a pair under which nothing has been heard, or from one that is yet to be generated, is unheard. */
  lemma UnheardKey(heard: set<Hearing>, pair: nat, peerPub: nat, n: nat)
    requires NoneWith(heard, pair) || (KeysKnown(heard, n) && pair == n)
    ensures NoneUnder(heard, Agree(pair, peerPub, true))
  {
    AgreeCommutes(pair, peerPub, true);
  }

  lemma DeriveCovers(heard: set<Hearing>, e: Endpoint, ok: bool, n: nat)
    requires Live(e) && StillCovers(heard, e) && KeysKnown(heard, n)
    ensures StillCovers(heard, DeriveKey(e, ok, n).e)
  {
    hide RecordCovers, HeardUpTo, NoneWith, NoneUnder, KeysKnown, Agree;
    var p := e.page.value;
    var e' := DeriveKey(e, ok, n).e;
    assert TextsOf(e') == TextsOf(e) by {
      assert e'.page.value.own == p.own && e'.page.value.accepted == p.accepted;
    }
    if p.inbound.JoinerDerive? {
      UnheardKey(heard, n, p.inbound.peerPub, n);
    } else if p.inbound.InitiatorDerive? && p.pendingPair.Some? {
      UnheardKey(heard, p.pendingPair.value, p.inbound.peerPub, n);
    }
  }

  lemma SwitchCovers(log: seq<Frame>, r: Role, heard: set<Hearing>, e: Endpoint, haveWrapKey: bool, n: nat)
    requires Live(e) && StillCovers(heard, e) && EndOk(log, r, e, n)
    ensures StillCovers(heard, SwitchToNewKey(e, haveWrapKey))
  {
  }

  /** A new record is written with the receive counter in use, for the key in use. */
  lemma RecordWritten(log: seq<Frame>, r: Role, heard: set<Hearing>, e: Endpoint, wrapOk: bool, writable: bool, n: nat)
    requires Live(e) && StillCovers(heard, e) && EndOk(log, r, e, n)
    ensures StillCovers(heard, WriteNewRecord(e, wrapOk, writable))
    ensures StillCovers(heard, FinishUpgrade(e, wrapOk, writable))
  {
  }

  lemma LocalCovers(heard: set<Hearing>, e: Endpoint, kind: RelayKind, data: nat)
    requires Live(e) && StillCovers(heard, e)
    ensures StillCovers(heard, OpenGap(e))
    ensures StillCovers(heard, EnqueueApp(e, kind, data))
    ensures StillCovers(heard, BeginUpgrade(e))
  {
  }

  // ---- accepting ----------------------------------------------------------------------------------------------

  /** What may have been heard after a delivery: as before, or a text ahead of all others under its key as well. */
  ghost predicate HeardOne(heard: set<Hearing>, heard': set<Hearing>, e: Endpoint, f: Frame)
    requires Live(e)
  {
    heard' == heard || (f.kind == Msg && heard' == heard + {(e.page.value.own, f)})
  }

  lemma InitCovers(heard: set<Hearing>, e: Endpoint, writable: bool, peerPub: nat)
    requires Live(e) && StillCovers(heard, e)
    ensures var e' := Mark(e.(page := Some(e.page.value.(rekeyInFlight := true))), writable);
      && Live(e') && StillCovers(heard, e')
      && StillCovers(heard, e'.(page := Some(e'.page.value.(inbound := JoinerDerive(peerPub)))))
  {
    hide Mark, StillCovers;
    var e1 := e.(page := Some(e.page.value.(rekeyInFlight := true)));
    Carries(heard, e, e1);
    MarkCovers(heard, e1, writable);
    MarkKeepsLive(e1, writable);
    var e2 := Mark(e1, writable);
    Carries(heard, e2, e2.(page := Some(e2.page.value.(inbound := JoinerDerive(peerPub)))));
  }

  lemma OtherCovers(r: Role, heard: set<Hearing>, e: Endpoint, f: Frame, writable: bool)
    requires Live(e) && StillCovers(heard, e)
    ensures StillCovers(heard, HandleOther(r, e, f, writable))
  {
    hide StartRekeyIfInitiator, Mark, StillCovers;
    Carries(heard, e, Ended(e));
    if f.kind == ModeUpgraded {
      Carries(heard, e, Learned(e, ModeUpgraded));
      StartRekeyCovers(r, heard, Learned(e, ModeUpgraded), writable);
    } else if f.payload.PublicKey? {
      if f.kind == RekeyInit {
        InitCovers(heard, e, writable, f.payload.pair);
      } else if f.kind == RekeyAck {
        Carries(heard, e, e.(page := Some(e.page.value.(inbound := InitiatorDerive(f.payload.pair)))));
      }
    }
  }

  /** Any frame but a text moves the counter in use and is not heard. */
  lemma NotedCovers(heard: set<Hearing>, e: Endpoint, f: Frame)
    requires Live(e) && StillCovers(heard, e) && f.kind != Msg && e.page.value.active.value.recv < f.counter
    ensures var p := e.page.value;
      StillCovers(heard, e.(page := Some(p.(active := Some(p.active.value.(recv := f.counter)),
                                            accepted := p.accepted + [f]))))
  {
    var p := e.page.value;
    var e' := e.(page := Some(p.(active := Some(p.active.value.(recv := f.counter)), accepted := p.accepted + [f])));
    assert TextsOf(e') <= TextsOf(e);
  }

  /** The endpoint after a text has been taken. */
  function TakenText(e: Endpoint, f: Frame, writable: bool): Endpoint
    requires Live(e)
  {
    var p := e.page.value;
    WithActive(e.(page := Some(p.(accepted := p.accepted + [f]))),
               NoteText(p.active.value, e.store, f.counter, writable))
  }

  lemma TextRecord(heard: set<Hearing>, e: Endpoint, f: Frame, writable: bool)
    requires Live(e) && StillCovers(heard, e) && MirrorOk(e.store, e.page.value.active.value)
    requires f.kind == Msg && f.key == e.page.value.active.value.key && e.page.value.active.value.recv < f.counter
    requires NoteText(e.page.value.active.value, e.store, f.counter, writable).ok
    ensures RecordCovers(heard + {(e.page.value.own, f)}, TakenText(e, f, writable).store)
  {
    hide TextsOf, NoneWith, NoneUnder;
  }

  lemma TextPage(heard: set<Hearing>, e: Endpoint, f: Frame, writable: bool)
    requires Live(e) && StillCovers(heard, e) && e.page.value.inbound == Ready
    requires f.kind == Msg && f.key == e.page.value.active.value.key && e.page.value.active.value.recv < f.counter
    requires NoteText(e.page.value.active.value, e.store, f.counter, writable).ok
    requires e.page.value.pendingPair.Some? ==> !Mentions(f.key, e.page.value.pendingPair.value)
    requires forall i :: 0 <= i < |e.page.value.outbox| ==> !e.page.value.outbox[i].after.Commit?
    ensures PageCovers(heard + {(e.page.value.own, f)}, TakenText(e, f, writable))
    ensures TextsOf(TakenText(e, f, writable)) == TextsOf(e) + {(e.page.value.own, f)}
  {
    hide RecordCovers;
    var p, p' := e.page.value, TakenText(e, f, writable).page.value;
    assert p'.accepted == p.accepted + [f] && p'.own == p.own && p'.outbox == p.outbox;
  }

  lemma TextNotTaken(heard: set<Hearing>, e: Endpoint, f: Frame, writable: bool)
    requires Live(e) && StillCovers(heard, e)
    requires !NoteText(e.page.value.active.value, e.store, f.counter, writable).ok
    ensures StillCovers(heard, HandleText(e, f, writable))
  {
    hide StillCovers;
    Carries(heard, e, HandleText(e, f, writable));
  }

  /** A text is heard once its counter has been written; one whose counter is not written is not heard. */
  lemma TextCovers(heard: set<Hearing>, e: Endpoint, f: Frame, writable: bool) returns (heard': set<Hearing>)
    requires Live(e) && StillCovers(heard, e) && MirrorOk(e.store, e.page.value.active.value)
    requires f.kind == Msg && f.key == e.page.value.active.value.key && e.page.value.active.value.recv < f.counter
    requires e.page.value.inbound == Ready
    requires e.page.value.pendingPair.Some? ==> !Mentions(f.key, e.page.value.pendingPair.value)
    requires forall i :: 0 <= i < |e.page.value.outbox| ==> !e.page.value.outbox[i].after.Commit?
    ensures HeardOne(heard, heard', e, f) && StillCovers(heard', HandleText(e, f, writable))
    ensures heard' == heard + TextsOf(HandleText(e, f, writable))
  {
    hide TextsOf, PageCovers, RecordCovers, MirrorOk;
    if NoteText(e.page.value.active.value, e.store, f.counter, writable).ok {
      heard' := heard + {(e.page.value.own, f)};
      TextRecord(heard, e, f, writable);
      TextPage(heard, e, f, writable);
      assert HandleText(e, f, writable) == TakenText(e, f, writable);
    } else {
      heard' := heard;
      TextNotTaken(heard, e, f, writable);
    }
  }

  /** Nothing heard before was heard again. */
  lemma HeardAhead(heard: set<Hearing>, heard': set<Hearing>, e: Endpoint, f: Frame, n: nat)
    requires Live(e) && HeardOk(heard, e, n) && HeardOne(heard, heard', e, f)
    requires f.key == e.page.value.active.value.key && e.page.value.active.value.recv < f.counter && Known(f.key, n)
    ensures OneLifeEach(heard') && KeysKnown(heard', n)
  {
  }

  // ---- every event --------------------------------------------------------------------------------------------

  lemma CoversIsOk(heard: set<Hearing>, e: Endpoint, e': Endpoint, n: nat, n': nat)
    requires HeardOk(heard, e, n) && StillCovers(heard, e') && n <= n'
    ensures HeardOk(heard + TextsOf(e'), e', n')
  {
    assert heard + TextsOf(e') == heard;
  }

  lemma ReadyNoCommit(log: seq<Frame>, r: Role, e: Endpoint, n: nat)
    requires Live(e) && EndOk(log, r, e, n) && e.page.value.inbound == Ready
    ensures forall i :: 0 <= i < |e.page.value.outbox| ==> !e.page.value.outbox[i].after.Commit?
    ensures !e.page.value.terminated ==> MirrorOk(e.store, e.page.value.active.value)
    ensures e.page.value.pendingPair.Some? ==> !Mentions(e.page.value.active.value.key, e.page.value.pendingPair.value)
    ensures Known(e.page.value.active.value.key, n)
  {
    var p := e.page.value;
    forall i | 0 <= i < |p.outbox| ensures !p.outbox[i].after.Commit? {
      assert TaskOk(log, r, p, p.active.value, p.outbox[i], n);
    }
  }

  lemma HandledHeard(log: seq<Frame>, r: Role, heard: set<Hearing>, e: Endpoint, f: Frame, wellFormed: bool,
                     writable: bool, n: nat)
    requires Live(e) && HeardOk(heard, e, n) && EndOk(log, r, e, n)
    requires !e.page.value.terminated && e.page.value.inbound == Ready
    requires f.key == e.page.value.active.value.key && e.page.value.active.value.recv < f.counter
    ensures var e' := Handle(r, e, f, wellFormed, writable); HeardOk(heard + TextsOf(e'), e', n)
  {
    hide HandleText, HandleOther, EndOk, HeardOk, StillCovers, MirrorOk;
    ReadyNoCommit(log, r, e, n);
    OkCovers(heard, e, n);
    if f.kind != Msg {
      NotedCovers(heard, e, f);
      var p := e.page.value;
      var noted := e.(page := Some(p.(active := Some(p.active.value.(recv := f.counter)), accepted := p.accepted + [f])));
      OtherCovers(r, heard, noted, f, writable);
      CoversIsOk(heard, e, HandleOther(r, noted, f, writable), n, n);
    } else if !wellFormed {
      Carries(heard, e, Ended(e));
      CoversIsOk(heard, e, Ended(e), n, n);
    } else {
      var heard' := TextCovers(heard, e, f, writable);
      HeardAhead(heard, heard', e, f, n);
      AheadIsOk(heard', HandleText(e, f, writable), n);
    }
  }

  lemma OkCovers(heard: set<Hearing>, e: Endpoint, n: nat)
    requires HeardOk(heard, e, n)
    ensures StillCovers(heard, e) && KeysKnown(heard, n)
  {
  }

  lemma AheadIsOk(heard: set<Hearing>, e: Endpoint, n: nat)
    requires OneLifeEach(heard) && KeysKnown(heard, n) && StillCovers(heard, e)
    ensures HeardOk(heard, e, n)
  {
  }

  lemma DeliveredHeard(log: seq<Frame>, r: Role, heard: set<Hearing>, e: Endpoint, action: Action, n: nat)
    requires Live(e) && HeardOk(heard, e, n) && EndOk(log, r, e, n) && action.Deliver?
    requires !e.page.value.terminated && e.page.value.inbound == Ready
    ensures var e' := DeliverTo(r, e, log, action); HeardOk(heard + TextsOf(e'), e', n)
  {
    hide Handle, Validate, EndOk, HeardOk, StillCovers;
    var p := e.page.value;
    var a := p.active.value;
    ValidateMeaning(log, r, a, action.kind, action.nonce, action.box);
    var taken := e.(page := Some(p.(active := Some(a.(mode := Strict)))));
    OkCovers(heard, e, n);
    Carries(heard, e, taken);
    Carries(heard, e, Ended(taken));
    CoversIsOk(heard, e, Ended(taken), n, n);
    CoversIsOk(heard, e, taken, n, n);
    StrictOk(log, r, heard, e, n);
    match Validate(log, r, a, action.kind, action.nonce, action.box)
    case Opened(f) => HandledHeard(log, r, heard, taken, f, action.wellFormed, action.writable, n);
    case _ =>
  }

  lemma StrictOk(log: seq<Frame>, r: Role, heard: set<Hearing>, e: Endpoint, n: nat)
    requires Live(e) && EndOk(log, r, e, n) && HeardOk(heard, e, n)
    ensures var taken := e.(page := Some(e.page.value.(active := Some(e.page.value.active.value.(mode := Strict)))));
      EndOk(log, r, taken, n) && HeardOk(heard, taken, n)
  {
    var taken := e.(page := Some(e.page.value.(active := Some(e.page.value.active.value.(mode := Strict)))));
    assert TextsOf(taken) == TextsOf(e);
    hide HeardUpTo, NoneUnder, NoneWith, KeysKnown, OneLifeEach;
  }

  lemma QuietCovers(log: seq<Frame>, r: Role, heard: set<Hearing>, e: Endpoint, action: Action, n: nat)
    requires Live(e) && HeardOk(heard, e, n) && EndOk(log, r, e, n)
    requires action.Boot? || action.Crash? || action.Terminate? || action.FinalizeTermination? || action.Handshake?
    ensures StillCovers(heard, ActLive(r, e, action, log, n).e)
  {
    assert action.Terminate? ==> TextsOf(Ended(e)) == TextsOf(e);
  }

  lemma LiveHeard(log: seq<Frame>, r: Role, heard: set<Hearing>, e: Endpoint, action: Action, n: nat)
    requires Live(e) && HeardOk(heard, e, n) && EndOk(log, r, e, n)
    ensures var x := ActLive(r, e, action, log, n); HeardOk(heard + TextsOf(x.e), x.e, n + x.pairs)
  {
    hide EndOk, HeardOk, StillCovers, RunHead, DeliverTo, EnqueueApp, BeginUpgrade, FinishUpgrade, FinishKeygen;
    hide DeriveKey, SwitchToNewKey, WriteNewRecord, TextsOf;
    OkCovers(heard, e, n);
    var x := ActLive(r, e, action, log, n);
    match action
    case Deliver(_, _, _, _, _) =>
      if e.page.value.terminated || e.page.value.inbound != Ready {
        CoversIsOk(heard, e, e, n, n);
      } else {
        DeliveredHeard(log, r, heard, e, action, n);
      }
    case RunTask(connected, writable, mw) =>
      if e.page.value.outbox != [] {
        SendCovers(log, r, heard, e, connected, writable, mw, n);
      }
      CoversIsOk(heard, e, x.e, n, n + x.pairs);
    case Keygen(ok) =>
      KeygenCovers(heard, e, ok, n);
      CoversIsOk(heard, e, x.e, n, n + x.pairs);
    case Derive(ok) =>
      DeriveCovers(heard, e, ok, n);
      CoversIsOk(heard, e, x.e, n, n + x.pairs);
    case CommitSwitch(haveWrapKey) =>
      SwitchCovers(log, r, heard, e, haveWrapKey, n);
      CoversIsOk(heard, e, x.e, n, n + x.pairs);
    case CommitWrite(wrapOk, writable) =>
      RecordWritten(log, r, heard, e, wrapOk, writable, n);
      CoversIsOk(heard, e, x.e, n, n + x.pairs);
    case UpgradePersist(wrapOk, writable) =>
      RecordWritten(log, r, heard, e, wrapOk, writable, n);
      CoversIsOk(heard, e, x.e, n, n + x.pairs);
    case Enqueue(kind, data) =>
      LocalCovers(heard, e, kind, data);
      CoversIsOk(heard, e, x.e, n, n + x.pairs);
    case AllowGap =>
      LocalCovers(heard, e, Msg, 0);
      CoversIsOk(heard, e, x.e, n, n + x.pairs);
    case UpgradeStart =>
      LocalCovers(heard, e, Msg, 0);
      CoversIsOk(heard, e, x.e, n, n + x.pairs);
    case _ =>
      QuietCovers(log, r, heard, e, action, n);
      CoversIsOk(heard, e, x.e, n, n + x.pairs);
  }

  lemma ActHeard(w: World, ev: Event, heard: set<Hearing>)
    requires Inv(w) && HeardOk(heard, w.At(ev.role), w.nextPair)
    ensures var w' := Step(w, ev); HeardOk(heard + TextsOf(w'.At(ev.role)), w'.At(ev.role), w'.nextPair)
  {
    hide EndOk, HeardOk, StillCovers, ActLive, ActOffline, ActBeforeActive, FramesOk, CountersGrow, InitsAllowed, TextsOf;
    var r := ev.role;
    var e := w.At(r);
    var x := Act(r, e, ev.action, w.log, w.nextPair);
    assert EndOk(w.log, r, e, w.nextPair);
    if e.page.None? {
      OfflineCovers(heard, e, ev.action, w.nextPair);
      CoversIsOk(heard, e, x.e, w.nextPair, w.nextPair + x.pairs);
    } else if e.page.value.active.None? {
      BeforeActiveCovers(w.log, r, heard, e, ev.action, w.nextPair);
      CoversIsOk(heard, e, x.e, w.nextPair, w.nextPair + x.pairs);
    } else {
      LiveHeard(w.log, r, heard, e, ev.action, w.nextPair);
    }
  }

  /** An event at one end changes nothing at the other. */
  lemma OtherHeard(w: World, ev: Event, heard: set<Hearing>)
    requires HeardOk(heard, w.At(ev.role.Peer()), w.nextPair)
    ensures var w' := Step(w, ev); var r := ev.role.Peer();
      w'.At(r) == w.At(r) && HeardOk(heard + TextsOf(w'.At(r)), w'.At(r), w'.nextPair)
  {
    hide Act, HeardOk, StillCovers;
    OkCovers(heard, w.At(ev.role.Peer()), w.nextPair);
    CoversIsOk(heard, w.At(ev.role.Peer()), w.At(ev.role.Peer()), w.nextPair, Step(w, ev).nextPair);
  }

  lemma {:induction false} RunHeard(events: seq<Event>, r: Role)
    ensures HeardOk(Heard(events, r), Run(events).At(r), Run(events).nextPair)
  {
    hide Step, HeardOk, Inv, TextsOf;
    if events == [] {
      NothingHeard(r);
    } else {
      var n := |events| - 1;
      RunHeard(events[..n], r);
      RunKept(events[..n]);
      if events[n].role == r {
        ActHeard(Run(events[..n]), events[n], Heard(events[..n], r));
      } else {
        assert events[n].role.Peer() == r;
        OtherHeard(Run(events[..n]), events[n], Heard(events[..n], r));
      }
    }
  }

  lemma NothingHeard(r: Role)
    ensures HeardOk({}, Start.At(r), 0)
  {
  }

  lemma {:induction false} HeardGrows(before: seq<Event>, after: seq<Event>, r: Role)
    ensures Heard(before, r) <= Heard(before + after, r)
  {
    if after == [] {
      assert before + after == before;
    } else {
      HeardGrows(before, after[..|after| - 1], r);
      assert (before + after)[..|before + after| - 1] == before + after[..|after| - 1];
    }
  }

  // ---- the promises -------------------------------------------------------------------------------------------

  /** `r`'s page after `events` has accepted the text `f`. */
  ghost predicate HasAccepted(events: seq<Event>, r: Role, f: Frame) {
    && Run(events).At(r).page.Some? && f.kind == Msg
    && f in Run(events).At(r).page.value.accepted
  }

  lemma OwnTexts(e: Endpoint)
    requires e.page.Some?
    ensures forall f | f in e.page.value.accepted && f.kind == Msg :: (e.page.value.own, f) in TextsOf(e)
  {
  }

  lemma AcceptedIsHeard(events: seq<Event>, r: Role, f: Frame)
    requires HasAccepted(events, r, f)
    ensures (Run(events).At(r).page.value.own, f) in Heard(events, r)
  {
    RunHeard(events, r);
    hide Run;
    assert (Run(events).At(r).page.value.own, f) in TextsOf(Run(events).At(r));
  }

  /**
   A text that a page has accepted is never accepted again: not by that page (`AcceptedFramesAreGenuine`), and not by
   any later page of the same end, whatever is stored, crashes, resumes and is rekeyed in between and whatever the
   relay delivers again.
   */
  lemma NoTextIsAcceptedInTwoLives(before: seq<Event>, after: seq<Event>, r: Role, f: Frame)
    requires HasAccepted(before, r, f) && Run(before + after).At(r).page.Some?
    requires Run(before + after).At(r).page.value.own != Run(before).At(r).page.value.own
    ensures f !in Run(before + after).At(r).page.value.accepted
  {
    AcceptedIsHeard(before, r, f);
    HeardGrows(before, after, r);
    RunHeard(before + after, r);
    hide Run;
    OwnTexts(Run(before + after).At(r));
  }

  /** A stored record that startup would resume has a receive counter that covers every text its owner ever accepted under its key. */
  lemma ResumableRecordCoversTexts(before: seq<Event>, after: seq<Event>, r: Role, f: Frame)
    requires HasAccepted(before, r, f)
    requires Run(before + after).At(r).store.Some? && !Run(before + after).At(r).store.value.rekeying
    requires Run(before + after).At(r).store.value.key == f.key
    ensures f.counter <= Run(before + after).At(r).store.value.recv
  {
    AcceptedIsHeard(before, r, f);
    HeardGrows(before, after, r);
    RunHeard(before + after, r);
    hide Run;
  }

  // ---- lives --------------------------------------------------------------------------------------------------

  /** A page keeps its own pair; one that starts takes the next. */
  ghost predicate OwnStep(e: Endpoint, e': Endpoint, n: nat, n': nat) {
    && n <= n'
    && (e'.page.Some? ==>
          if e.page.Some? then e'.page.value.own == e.page.value.own else e'.page.value.own == n < n')
  }

  lemma MarkOwn(r: Role, e: Endpoint, writable: bool, n: nat)
    requires Live(e)
    ensures OwnStep(e, Mark(e, writable), n, n) && Live(Mark(e, writable))
    ensures OwnStep(e, StartRekeyIfInitiator(r, e, writable), n, n) && Live(StartRekeyIfInitiator(r, e, writable))
  {
  }

  lemma RecordOwn(e: Endpoint, ok: bool, writable: bool, n: nat)
    requires Live(e)
    ensures OwnStep(e, SwitchToNewKey(e, ok), n, n)
    ensures OwnStep(e, WriteNewRecord(e, ok, writable), n, n)
    ensures OwnStep(e, FinishUpgrade(e, ok, writable), n, n)
  {
  }

  lemma DeriveOwn(e: Endpoint, ok: bool, n: nat)
    requires Live(e)
    ensures OwnStep(e, DeriveKey(e, ok, n).e, n, n)
  {
    hide Agree;
    if e.page.value.inbound.JoinerDerive? {
      if !ok || e.page.value.inbound.peerPub == n {
      }
    } else if e.page.value.inbound.InitiatorDerive? {
    }
  }

  lemma SendOwn(r: Role, e: Endpoint, connected: bool, writable: bool, mw: bool, n: nat)
    requires Live(e) && e.page.value.outbox != []
    ensures OwnStep(e, RunHead(r, e, connected, writable, mw).e, n, n)
  {
    hide RunAfter, Allocate;
    var p := e.page.value;
    var t := p.outbox[0];
    var popped := e.(page := Some(p.(outbox := p.outbox[1..])));
    AfterOwn(r, popped, t.after, mw, n);
    var e' := WithActive(popped, Allocate(p.active.value, e.store, t.kind, writable));
    AfterOwn(r, e', t.after, mw, n);
    AfterOwn(r, Ended(e'), t.after, mw, n);
  }

  lemma AfterOwn(r: Role, e: Endpoint, after: After, mw: bool, n: nat)
    requires Live(e)
    ensures forall sent :: OwnStep(e, RunAfter(r, e, after, sent, mw), n, n)
  {
    hide StartRekeyIfInitiator;
    MarkOwn(r, e, mw, n);
  }

  lemma OtherOwn(r: Role, e: Endpoint, f: Frame, writable: bool, n: nat)
    requires Live(e)
    ensures OwnStep(e, HandleOther(r, e, f, writable), n, n)
  {
    hide StartRekeyIfInitiator, Mark;
    match f.kind
    case ModeUpgraded => MarkOwn(r, Learned(e, ModeUpgraded), writable, n);
    case RekeyInit => MarkOwn(r, e.(page := Some(e.page.value.(rekeyInFlight := true))), writable, n);
    case _ =>
  }

  lemma HandleOwn(r: Role, e: Endpoint, f: Frame, wellFormed: bool, writable: bool, n: nat)
    requires Live(e)
    ensures OwnStep(e, Handle(r, e, f, wellFormed, writable), n, n)
  {
    hide HandleOther, NoteText;
    if f.kind != Msg {
      var p := e.page.value;
      OtherOwn(r, e.(page := Some(p.(active := Some(p.active.value.(recv := f.counter)),
                                     accepted := p.accepted + [f]))), f, writable, n);
    }
  }

  lemma DeliverOwn(r: Role, e: Endpoint, log: seq<Frame>, action: Action, n: nat)
    requires Live(e) && action.Deliver?
    ensures OwnStep(e, DeliverTo(r, e, log, action), n, n)
  {
    hide Validate, Handle;
    var taken := e.(page := Some(e.page.value.(active := Some(e.page.value.active.value.(mode := Strict)))));
    match Validate(log, r, e.page.value.active.value, action.kind, action.nonce, action.box)
    case Opened(f) => HandleOwn(r, taken, f, action.wellFormed, action.writable, n);
    case _ =>
  }

  lemma ActOwn(r: Role, e: Endpoint, action: Action, log: seq<Frame>, n: nat)
    ensures var x := Act(r, e, action, log, n); OwnStep(e, x.e, n, n + x.pairs)
  {
    hide RunHead, DeliverTo, FinishUpgrade, DeriveKey, SwitchToNewKey, WriteNewRecord;
    if Live(e) {
      match action
      case RunTask(connected, writable, mw) =>
        if e.page.value.outbox != [] {
          SendOwn(r, e, connected, writable, mw, n);
        }
      case Deliver(_, _, _, _, _) => DeliverOwn(r, e, log, action, n);
      case UpgradePersist(ok, writable) => RecordOwn(e, ok, writable, n);
      case Derive(ok) => DeriveOwn(e, ok, n);
      case CommitSwitch(ok) => RecordOwn(e, ok, false, n);
      case CommitWrite(ok, writable) => RecordOwn(e, ok, writable, n);
      case _ =>
    }
  }

  lemma {:induction false} OwnKnown(events: seq<Event>, r: Role)
    ensures Run(events).At(r).page.Some? ==> Run(events).At(r).page.value.own < Run(events).nextPair
  {
    hide Act;
    if events != [] {
      var n := |events| - 1;
      OwnKnown(events[..n], r);
      var w := Run(events[..n]);
      ActOwn(events[n].role, w.At(events[n].role), events[n].action, w.log, w.nextPair);
    }
  }

  /** After a moment without a page, any page has a pair that was not yet generated then. */
  lemma {:induction false} LaterPagesAreNew(before: seq<Event>, after: seq<Event>, r: Role)
    requires Run(before).At(r).page.None?
    ensures Run(before).nextPair <= Run(before + after).nextPair
    ensures Run(before + after).At(r).page.Some? ==> Run(before + after).At(r).page.value.own >= Run(before).nextPair
  {
    hide Act;
    if after == [] {
      assert before + after == before;
    } else {
      var n := |after| - 1;
      LaterPagesAreNew(before, after[..n], r);
      assert (before + after)[..|before + after| - 1] == before + after[..n];
      var w := Run(before + after[..n]);
      ActOwn(after[n].role, w.At(after[n].role), after[n].action, w.log, w.nextPair);
    }
  }

  lemma {:induction false} PairsGrow(before: seq<Event>, after: seq<Event>)
    ensures Run(before).nextPair <= Run(before + after).nextPair
  {
    hide Act;
    if after == [] {
      assert before + after == before;
    } else {
      PairsGrow(before, after[..|after| - 1]);
      assert (before + after)[..|before + after| - 1] == before + after[..|after| - 1];
    }
  }

  /** A page that is there after a moment without one is another life; so no text accepted before is accepted by it. */
  lemma AReloadedPageIsAnotherLife(before: seq<Event>, mid: seq<Event>, after: seq<Event>, r: Role)
    requires Run(before).At(r).page.Some? && Run(before + mid).At(r).page.None?
    requires Run(before + mid + after).At(r).page.Some?
    ensures Run(before + mid + after).At(r).page.value.own != Run(before).At(r).page.value.own
    ensures forall f | HasAccepted(before, r, f) :: f !in Run(before + mid + after).At(r).page.value.accepted
  {
    hide Run, HasAccepted, OwnStep;
    OwnKnown(before, r);
    PairsGrow(before, mid);
    LaterPagesAreNew(before + mid, after, r);
    assert before + mid + after == before + (mid + after);
    forall f | HasAccepted(before, r, f) ensures f !in Run(before + mid + after).At(r).page.value.accepted {
      NoTextIsAcceptedInTwoLives(before, mid + after, r, f);
    }
  }
}
