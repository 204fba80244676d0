/**
 What every run of `Session` keeps: no nonce is used twice under a key, and a stored record that
 startup would resume never lags behind the counters already used under its key.
 */
module SessionSafety {
  import opened Bytes
  import opened Nonce
  import opened Wire
  import opened Channel
  import opened Session

  // ---- facts about the log of sealed frames -------------------------------------------------

  /** Every counter `r` has used under `key` is at most `bound`. */
  predicate UsedUpTo(log: seq<Frame>, r: Role, key: Key, bound: nat) {
    forall i :: 0 <= i < |log| && log[i].sender == r && log[i].key == key ==> log[i].counter <= bound
  }

  /** `r` has sealed nothing under a key agreed with `pair`. */
  predicate Untouched(log: seq<Frame>, r: Role, pair: nat) {
    forall i :: 0 <= i < |log| && log[i].sender == r ==> !Mentions(log[i].key, pair)
  }

  predicate Known(key: Key, nextPair: nat) {
    key.lo < nextPair && key.hi < nextPair
  }

  /** Per sender and key, counters grow in the order of sealing. */
  predicate CountersGrow(log: seq<Frame>) {
    forall i, j :: 0 <= i < j < |log| && log[i].sender == log[j].sender && log[i].key == log[j].key
                   ==> log[i].counter < log[j].counter
  }

  predicate FramesOk(log: seq<Frame>, nextPair: nat) {
    forall i :: 0 <= i < |log| ==>
      && 1 <= log[i].counter <= MAX_COUNTER
      && Known(log[i].key, nextPair)
      && PayloadOk(log[i].kind, log[i].payload, nextPair)
  }

  predicate PayloadOk(kind: RelayKind, payload: Payload, nextPair: nat) {
    kind == RekeyInit || kind == RekeyAck ==> payload.PublicKey? && payload.pair < nextPair
  }

  // ---- one end ------------------------------------------------------------------------------

  predicate StoreOk(log: seq<Frame>, r: Role, store: Option<StoredSession>, nextPair: nat) {
    store.Some? ==>
      && Known(store.value.key, nextPair)
      && (!store.value.rekeying ==> UsedUpTo(log, r, store.value.key, store.value.send))
      && (store.value.hardened ==> store.value.key.rekeyed)
  }

  /** The mirror is what is stored; unless it carries the rekey marker it describes the key in use. */
  predicate MirrorOk(store: Option<StoredSession>, a: Active) {
    && store == a.mirror
    && (a.mirror.Some? && !a.mirror.value.rekeying ==>
          a.mirror.value.key == a.key && a.mirror.value.send == a.reserved)
    && (a.mirror.Some? && a.mirror.value.hardened ==> a.mirror.value.key.rekeyed)
  }

  predicate Marked(p: Page, a: Active) {
    && p.rekeyInFlight
    && p.localPrf
    && (p.terminated || (a.mirror.Some? && a.mirror.value.rekeying))
  }

  /** A key about to replace the current one has not been used by `r`. */
  predicate CommitKeyOk(log: seq<Frame>, r: Role, p: Page, a: Active, key: Key, nextPair: nat) {
    && Marked(p, a)
    && p.pendingPair.None? && !p.keygen
    && Known(key, nextPair) && key.rekeyed && key != a.key
    && UsedUpTo(log, r, key, 0)
    && (forall i :: 0 <= i < |p.accepted| ==> p.accepted[i].key != key)
  }

  predicate InboundOk(log: seq<Frame>, r: Role, p: Page, a: Active, nextPair: nat) {
    match p.inbound
    case Ready => true
    case JoinerDerive(peerPub) => r == Joiner && Marked(p, a) && peerPub < nextPair
    case AwaitAckSent => r == Joiner && Marked(p, a)
    case InitiatorDerive(peerPub) => r == Initiator && p.pendingPair.Some? && peerPub < nextPair
    case CommitNext(key) => CommitKeyOk(log, r, p, a, key, nextPair)
    case CommitPersist(key) => Marked(p, a) && p.pendingPair.None? && !p.keygen && key == a.key && key.rekeyed
  }

  predicate TaskOk(log: seq<Frame>, r: Role, p: Page, a: Active, t: Task, nextPair: nat) {
    && PayloadOk(t.kind, t.payload, nextPair)
    && (t.kind == RekeyInit && r == Initiator ==> p.peerPrf)
    && (t.kind == ModeUpgraded || t.after.MaybeRekey? ==> p.localPrf)
    && (t.after.Commit? ==> p.inbound == AwaitAckSent && CommitKeyOk(log, r, p, a, t.after.key, nextPair))
  }

  /** At most one queued task is followed by a commit. */
  predicate OneCommit(outbox: seq<Task>) {
    forall i, j :: 0 <= i < j < |outbox| ==> !(outbox[i].after.Commit? && outbox[j].after.Commit?)
  }

  predicate PairOk(log: seq<Frame>, r: Role, p: Page, a: Active, pair: nat, nextPair: nat) {
    && r == Initiator && Marked(p, a) && p.peerPrf && !p.keygen
    && pair < nextPair && !Mentions(a.key, pair) && Untouched(log, r, pair)
    && (forall i :: 0 <= i < |p.accepted| ==> !Mentions(p.accepted[i].key, pair))
    && (p.inbound.Ready? || p.inbound.InitiatorDerive?)
  }

  predicate AcceptedOk(log: seq<Frame>, r: Role, p: Page, a: Active) {
    && (forall i :: 0 <= i < |p.accepted| ==>
          && p.accepted[i] in log
          && p.accepted[i].sender == r.Peer()
          && (p.accepted[i].key == a.key ==> p.accepted[i].counter <= a.recv))
    && (forall i, j :: 0 <= i < j < |p.accepted| && p.accepted[i].key == p.accepted[j].key
                       ==> p.accepted[i].counter < p.accepted[j].counter)
  }

  predicate LiveOk(log: seq<Frame>, r: Role, store: Option<StoredSession>, p: Page, a: Active, nextPair: nat) {
    && Known(a.key, nextPair)
    && UsedUpTo(log, r, a.key, a.committed)
    && a.committed <= a.reserved
    && (!p.terminated ==> MirrorOk(store, a))
    && p.localPrf == a.mirror.Some?
    && (p.upgrading.Some? ==> p.upgrading.value == a.key && !p.localPrf)
    && (p.keygen ==> r == Initiator && Marked(p, a) && p.peerPrf && p.pendingPair.None? && p.inbound.Ready?)
    && (p.pendingPair.Some? ==> PairOk(log, r, p, a, p.pendingPair.value, nextPair))
    && InboundOk(log, r, p, a, nextPair)
    && (forall i :: 0 <= i < |p.outbox| ==> TaskOk(log, r, p, a, p.outbox[i], nextPair))
    && OneCommit(p.outbox)
    && AcceptedOk(log, r, p, a)
  }

  predicate IdleOk(log: seq<Frame>, r: Role, store: Option<StoredSession>, p: Page, nextPair: nat) {
    && p == FreshPage(p.own).(terminated := p.terminated)
    && p.own < nextPair
    && Untouched(log, r, p.own)
    && (!p.terminated ==> store.None?)
  }

  predicate EndOk(log: seq<Frame>, r: Role, e: Endpoint, nextPair: nat) {
    && StoreOk(log, r, e.store, nextPair)
    && (e.page.Some? ==>
          if e.page.value.active.Some?
          then LiveOk(log, r, e.store, e.page.value, e.page.value.active.value, nextPair)
          else IdleOk(log, r, e.store, e.page.value, nextPair))
  }

  // ---- across the two ends ------------------------------------------------------------------

  /** The joiner has announced its upgrade under `key`. */
  predicate Announced(log: seq<Frame>, key: Key) {
    exists i :: 0 <= i < |log| && log[i].sender == Joiner && log[i].kind == ModeUpgraded && log[i].key == key
  }

  /** A rekey under `key` is preceded by the joiner's upgrade under it. */
  predicate RekeyAllowed(log: seq<Frame>, key: Key) {
    key.rekeyed || Announced(log, key)
  }

  predicate JoinerUpgradesFirst(w: World) {
    var e := w.joiner;
    Live(e) && !e.page.value.localPrf ==> !RekeyAllowed(w.log, e.page.value.active.value.key)
  }

  predicate InitiatorWaits(w: World) {
    var e := w.initiator;
    Live(e) && e.page.value.peerPrf ==> RekeyAllowed(w.log, e.page.value.active.value.key)
  }

  predicate InitsAllowed(log: seq<Frame>) {
    forall i :: 0 <= i < |log| && log[i].sender == Initiator && log[i].kind == RekeyInit
                ==> RekeyAllowed(log, log[i].key)
  }

  predicate Inv(w: World) {
    && CountersGrow(w.log)
    && FramesOk(w.log, w.nextPair)
    && EndOk(w.log, Initiator, w.initiator, w.nextPair)
    && EndOk(w.log, Joiner, w.joiner, w.nextPair)
    && JoinerUpgradesFirst(w)
    && InitiatorWaits(w)
    && InitsAllowed(w.log)
  }

  // ---- every event keeps the invariant -------------------------------------------------------

  function Extended(log: seq<Frame>, sealed: Option<Frame>): seq<Frame> {
    if sealed.Some? then log + [sealed.value] else log
  }

  lemma OtherEndKept(log: seq<Frame>, sealed: Option<Frame>, r: Role, e: Endpoint, n: nat, n': nat)
    requires EndOk(log, r, e, n) && n <= n'
    requires sealed.Some? ==> sealed.value.sender != r
    ensures EndOk(Extended(log, sealed), r, e, n')
  {
    var log' := Extended(log, sealed);
    assert forall i :: 0 <= i < |log| ==> log'[i] == log[i];
    assert forall f :: f in log ==> f in log';
  }

  lemma OfflineKept(log: seq<Frame>, r: Role, e: Endpoint, action: Action, n: nat)
    requires e.page.None? && EndOk(log, r, e, n) && FramesOk(log, n)
    ensures var x := ActOffline(e, action, n); EndOk(log, r, x.e, n + x.pairs)
  {
  }

  lemma BeforeActiveKept(log: seq<Frame>, r: Role, e: Endpoint, action: Action, n: nat)
    requires e.page.Some? && e.page.value.active.None? && EndOk(log, r, e, n)
    ensures var x := ActBeforeActive(e, action, n); EndOk(log, r, x.e, n + x.pairs)
  {
  }

  lemma MarkKept(log: seq<Frame>, r: Role, e: Endpoint, writable: bool, n: nat)
    requires Live(e) && EndOk(log, r, e, n) && !e.page.value.terminated
    ensures EndOk(log, r, Mark(e, writable), n)
    ensures e.page.value.localPrf && e.page.value.rekeyInFlight ==>
              Marked(Mark(e, writable).page.value, Mark(e, writable).page.value.active.value)
  {
  }

  lemma StartRekeyKept(log: seq<Frame>, r: Role, e: Endpoint, writable: bool, n: nat)
    requires Live(e) && EndOk(log, r, e, n) && e.page.value.localPrf && e.page.value.peerPrf
    ensures EndOk(log, r, StartRekeyIfInitiator(r, e, writable), n)
  {
    var p := e.page.value;
    if !p.terminated && !p.rekeyInFlight {
      var e1 := e.(page := Some(p.(rekeyInFlight := true)));
      assert EndOk(log, r, e1, n);
      MarkKept(log, r, e1, writable, n);
    }
  }

  lemma RunAfterKept(log: seq<Frame>, r: Role, e: Endpoint, t: Task, sent: bool, markerWritable: bool, n: nat)
    requires Live(e) && EndOk(log, r, e, n)
    requires TaskOk(log, r, e.page.value, e.page.value.active.value, t, n)
    requires t.after.Commit? ==>
               forall i :: 0 <= i < |e.page.value.outbox| ==> !e.page.value.outbox[i].after.Commit?
    ensures EndOk(log, r, RunAfter(r, e, t.after, sent, markerWritable), n)
  {
    if t.after.MaybeRekey? && e.page.value.peerPrf {
      StartRekeyKept(log, r, e, markerWritable, n);
    }
  }

  lemma AllocateKept(log: seq<Frame>, r: Role, e: Endpoint, t: Task, writable: bool, n: nat)
    requires Live(e) && EndOk(log, r, e, n) && !e.page.value.terminated
    requires TaskOk(log, r, e.page.value, e.page.value.active.value, t, n)
    ensures var a := e.page.value.active.value;
            var o := Allocate(a, e.store, t.kind, writable);
            var e' := WithActive(e, o);
            && o.active.key == a.key
            && EndOk(log, r, if o.ok then e' else Ended(e'), n)
            && TaskOk(log, r, (if o.ok then e' else Ended(e')).page.value, o.active, t, n)
            && (o.ok ==> o.active.committed >= 1 && UsedUpTo(log, r, a.key, o.active.committed - 1))
  {
  }

  /** Sealing a frame with the counter just taken. */
  lemma SealKept(log: seq<Frame>, r: Role, e: Endpoint, f: Frame, t: Task, n: nat)
    requires Live(e) && EndOk(log, r, e, n) && !e.page.value.terminated
    requires TaskOk(log, r, e.page.value, e.page.value.active.value, t, n)
    requires f.sender == r && f.key == e.page.value.active.value.key
    requires f.counter == e.page.value.active.value.committed
    ensures EndOk(log + [f], r, e, n)
    ensures TaskOk(log + [f], r, e.page.value, e.page.value.active.value, t, n)
  {
    var log' := log + [f];
    assert forall i :: 0 <= i < |log| ==> log'[i] == log[i];
    assert forall g :: g in log ==> g in log';
    var p := e.page.value;
    var a := p.active.value;
    assert UsedUpTo(log', r, a.key, a.committed);
    assert StoreOk(log', r, e.store, n);
    assert AcceptedOk(log', r, p, a);
    assert p.pendingPair.Some? ==> PairOk(log', r, p, a, p.pendingPair.value, n);
    assert InboundOk(log', r, p, a, n);
  }

  lemma LogKept(log: seq<Frame>, f: Frame, n: nat)
    requires FramesOk(log, n) && CountersGrow(log)
    requires 1 <= f.counter <= MAX_COUNTER && UsedUpTo(log, f.sender, f.key, f.counter - 1)
    requires Known(f.key, n) && PayloadOk(f.kind, f.payload, n)
    ensures FramesOk(log + [f], n) && CountersGrow(log + [f])
  {
  }

  /** The head task has been popped and runs. */
  lemma SendKept(log: seq<Frame>, r: Role, e: Endpoint, t: Task, writable: bool, mw: bool, n: nat)
    requires Live(e) && EndOk(log, r, e, n) && !e.page.value.terminated
    requires TaskOk(log, r, e.page.value, e.page.value.active.value, t, n)
    requires t.after.Commit? ==>
               forall i :: 0 <= i < |e.page.value.outbox| ==> !e.page.value.outbox[i].after.Commit?
    ensures var o := Allocate(e.page.value.active.value, e.store, t.kind, writable);
            var e' := WithActive(e, o);
            var f := Frame(o.active.key, r, o.active.committed, t.kind, t.payload);
            if !o.ok || o.active.committed > MAX_COUNTER
            then EndOk(log, r, RunAfter(r, Ended(e'), t.after, false, mw), n)
            else EndOk(log + [f], r, RunAfter(r, e', t.after, true, mw), n)
  {
    AllocateKept(log, r, e, t, writable, n);
    var o := Allocate(e.page.value.active.value, e.store, t.kind, writable);
    var e' := WithActive(e, o);
    if !o.ok || o.active.committed > MAX_COUNTER {
      EndedKept(log, r, if o.ok then e' else Ended(e'), t, n);
      RunAfterKept(log, r, Ended(e'), t, false, mw, n);
    } else {
      var f := Frame(o.active.key, r, o.active.committed, t.kind, t.payload);
      SealKept(log, r, e', f, t, n);
      RunAfterKept(log + [f], r, e', t, true, mw, n);
    }
  }

  lemma RunHeadKept(log: seq<Frame>, r: Role, e: Endpoint, connected: bool, writable: bool, mw: bool, n: nat)
    requires Live(e) && EndOk(log, r, e, n) && e.page.value.outbox != []
    ensures var x := RunHead(r, e, connected, writable, mw); EndOk(Extended(log, x.sealed), r, x.e, n)
  {
    var p := e.page.value;
    var t := p.outbox[0];
    var popped := e.(page := Some(p.(outbox := p.outbox[1..])));
    PoppedKept(log, r, e, n);
    if p.terminated || !connected {
      RunAfterKept(log, r, popped, t, false, mw, n);
    } else {
      SendKept(log, r, popped, t, writable, mw, n);
    }
  }

  lemma RunHeadLogKept(log: seq<Frame>, r: Role, e: Endpoint, connected: bool, writable: bool, mw: bool, n: nat)
    requires Live(e) && EndOk(log, r, e, n) && e.page.value.outbox != []
    requires FramesOk(log, n) && CountersGrow(log)
    ensures var x := RunHead(r, e, connected, writable, mw);
            FramesOk(Extended(log, x.sealed), n) && CountersGrow(Extended(log, x.sealed))
  {
    var x := RunHead(r, e, connected, writable, mw);
    if x.sealed.Some? {
      assert TaskOk(log, r, e.page.value, e.page.value.active.value, e.page.value.outbox[0], n);
      LogKept(log, x.sealed.value, n);
    }
  }

  lemma EndedKept(log: seq<Frame>, r: Role, e: Endpoint, t: Task, n: nat)
    requires Live(e) && EndOk(log, r, e, n)
    requires TaskOk(log, r, e.page.value, e.page.value.active.value, t, n)
    ensures EndOk(log, r, Ended(e), n)
    ensures TaskOk(log, r, Ended(e).page.value, e.page.value.active.value, t, n)
  {
  }

  lemma PoppedKept(log: seq<Frame>, r: Role, e: Endpoint, n: nat)
    requires Live(e) && EndOk(log, r, e, n) && e.page.value.outbox != []
    ensures var p := e.page.value;
            var q := p.(outbox := p.outbox[1..]);
            && EndOk(log, r, e.(page := Some(q)), n)
            && TaskOk(log, r, q, q.active.value, p.outbox[0], n)
            && (p.outbox[0].after.Commit? ==> forall i :: 0 <= i < |q.outbox| ==> !q.outbox[i].after.Commit?)
  {
    var p := e.page.value;
    var q := p.(outbox := p.outbox[1..]);
    assert forall i :: 0 <= i < |q.outbox| ==> q.outbox[i] == p.outbox[i + 1];
    assert TaskOk(log, r, p, p.active.value, p.outbox[0], n);
  }

  /** Accepting a frame: the counter moves and the frame joins the accepted list. */
  lemma NotedKept(log: seq<Frame>, r: Role, e: Endpoint, f: Frame, n: nat)
    requires Live(e) && EndOk(log, r, e, n)
    requires f in log && f.sender == r.Peer() && f.key == e.page.value.active.value.key
    requires e.page.value.active.value.recv < f.counter
    requires e.page.value.inbound == Ready
    ensures var p := e.page.value;
            EndOk(log, r, e.(page := Some(p.(active := Some(p.active.value.(recv := f.counter)),
                                             accepted := p.accepted + [f]))), n)
  {
  }

  lemma TextKept(log: seq<Frame>, r: Role, e: Endpoint, f: Frame, writable: bool, n: nat)
    requires Live(e) && EndOk(log, r, e, n)
    requires !e.page.value.terminated && e.page.value.inbound == Ready
    requires f in log && f.sender == r.Peer() && f.key == e.page.value.active.value.key
    requires e.page.value.active.value.recv < f.counter
    ensures EndOk(log, r, HandleText(e, f, writable), n)
  {
  }

  lemma HandleKept(log: seq<Frame>, r: Role, e: Endpoint, f: Frame, wellFormed: bool, writable: bool, n: nat)
    requires Live(e) && EndOk(log, r, e, n) && FramesOk(log, n)
    requires !e.page.value.terminated && e.page.value.inbound == Ready
    requires f in log && f.sender == r.Peer() && f.key == e.page.value.active.value.key
    requires e.page.value.active.value.recv < f.counter
    requires r == Joiner && f.kind == RekeyInit ==> e.page.value.localPrf
    ensures EndOk(log, r, Handle(r, e, f, wellFormed, writable), n)
  {
    if f.kind == Msg {
      if wellFormed {
        TextKept(log, r, e, f, writable, n);
      }
    } else {
      var p := e.page.value;
      NotedKept(log, r, e, f, n);
      var noted := e.(page := Some(p.(active := Some(p.active.value.(recv := f.counter)),
                                      accepted := p.accepted + [f])));
      hide EndOk;
      if f.kind == ModeUpgraded {
        UpgradedKept(log, r, noted, writable, n);
      } else if f.kind == RekeyInit {
        InitKept(log, r, noted, f, writable, n);
      } else if f.kind == RekeyAck {
        AckKept(log, r, noted, f, n);
      }
    }
  }

  lemma UpgradedKept(log: seq<Frame>, r: Role, e: Endpoint, writable: bool, n: nat)
    requires Live(e) && EndOk(log, r, e, n)
    ensures var e' := e.(page := Some(e.page.value.(peerPrf := true)));
            && EndOk(log, r, e', n)
            && (e.page.value.localPrf ==> EndOk(log, r, StartRekeyIfInitiator(r, e', writable), n))
  {
    if e.page.value.localPrf {
      StartRekeyKept(log, r, e.(page := Some(e.page.value.(peerPrf := true))), writable, n);
    }
  }

  lemma AckKept(log: seq<Frame>, r: Role, e: Endpoint, f: Frame, n: nat)
    requires Live(e) && EndOk(log, r, e, n) && FramesOk(log, n)
    requires e.page.value.inbound == Ready && f in log && f.kind == RekeyAck
    ensures EndOk(log, r,
                  if !f.payload.PublicKey? || r != Initiator || e.page.value.pendingPair.None? then Ended(e)
                  else e.(page := Some(e.page.value.(inbound := InitiatorDerive(f.payload.pair)))), n)
  {
  }

  lemma InitKept(log: seq<Frame>, r: Role, e: Endpoint, f: Frame, writable: bool, n: nat)
    requires Live(e) && EndOk(log, r, e, n) && FramesOk(log, n)
    requires !e.page.value.terminated && e.page.value.inbound == Ready
    requires f in log && f.kind == RekeyInit
    requires r == Joiner ==> e.page.value.localPrf
    ensures var q := e.page.value;
            EndOk(log, r,
                  if !f.payload.PublicKey? || r != Joiner then Ended(e)
                  else
                    var e' := Mark(e.(page := Some(q.(rekeyInFlight := true))), writable);
                    if e'.page.value.terminated then e'
                    else e'.(page := Some(e'.page.value.(inbound := JoinerDerive(f.payload.pair)))), n)
  {
    if f.payload.PublicKey? && r == Joiner {
      var e1 := e.(page := Some(e.page.value.(rekeyInFlight := true)));
      assert EndOk(log, r, e1, n);
      MarkKept(log, r, e1, writable, n);
    }
  }

  lemma DeliverKept(log: seq<Frame>, r: Role, e: Endpoint, action: Action, n: nat)
    requires Live(e) && action.Deliver? && EndOk(log, r, e, n) && FramesOk(log, n)
    requires !e.page.value.terminated && e.page.value.inbound == Ready
    requires r == Joiner && !e.page.value.localPrf ==>
               !RekeyAllowed(log, e.page.value.active.value.key) && InitsAllowed(log)
    ensures EndOk(log, r, DeliverTo(r, e, log, action), n)
  {
    hide Handle, Validate;
    var p := e.page.value;
    var a := p.active.value;
    var taken := e.(page := Some(p.(active := Some(a.(mode := Strict)))));
    assert EndOk(log, r, taken, n);
    ValidateMeaning(log, r, a, action.kind, action.nonce, action.box);
    match Validate(log, r, a, action.kind, action.nonce, action.box)
    case Opened(f) => HandleKept(log, r, taken, f, action.wellFormed, action.writable, n);
    case _ =>
  }

  lemma AnswerKept(log: seq<Frame>, r: Role, e: Endpoint, ok: bool, n: nat)
    requires Live(e) && EndOk(log, r, e, n) && FramesOk(log, n) && e.page.value.inbound.JoinerDerive?
    ensures var x := DeriveKey(e, ok, n); EndOk(log, r, x.e, n + x.pairs)
  {
    OtherEndKept(log, None, r, e, n, n + 1);
    AgreeCommutes(n, e.page.value.inbound.peerPub, true);
    hide Agree;
  }

  lemma TakeAnswerKept(log: seq<Frame>, r: Role, e: Endpoint, ok: bool, n: nat)
    requires Live(e) && EndOk(log, r, e, n) && FramesOk(log, n) && e.page.value.inbound.InitiatorDerive?
    ensures EndOk(log, r, DeriveKey(e, ok, n).e, n) && DeriveKey(e, ok, n).pairs == 0
  {
    var p := e.page.value;
    if p.pendingPair.Some? {
      AgreeCommutes(p.pendingPair.value, p.inbound.peerPub, true);
    }
  }

  lemma DeriveKept(log: seq<Frame>, r: Role, e: Endpoint, ok: bool, n: nat)
    requires Live(e) && EndOk(log, r, e, n) && FramesOk(log, n)
    ensures var x := DeriveKey(e, ok, n); EndOk(log, r, x.e, n + x.pairs)
  {
    hide EndOk, FramesOk, Agree;
    if e.page.value.inbound.JoinerDerive? {
      AnswerKept(log, r, e, ok, n);
    } else if e.page.value.inbound.InitiatorDerive? {
      TakeAnswerKept(log, r, e, ok, n);
    }
  }

  lemma SwitchKept(log: seq<Frame>, r: Role, e: Endpoint, haveWrapKey: bool, n: nat)
    requires Live(e) && EndOk(log, r, e, n)
    ensures EndOk(log, r, SwitchToNewKey(e, haveWrapKey), n)
  {
  }

  lemma NewRecordKept(log: seq<Frame>, r: Role, e: Endpoint, wrapOk: bool, writable: bool, n: nat)
    requires Live(e) && EndOk(log, r, e, n)
    ensures EndOk(log, r, WriteNewRecord(e, wrapOk, writable), n)
  {
    var p := e.page.value;
    if p.inbound.CommitPersist? && wrapOk && writable && !p.terminated {
      var o := InstallRecord(p.active.value, e.store, p.inbound.key, true, true);
      var e' := WithActive(e, o);
      assert StoreOk(log, r, o.store, n);
      assert MirrorOk(o.store, o.active);
    }
  }

  lemma UpgradeKept(log: seq<Frame>, r: Role, e: Endpoint, wrapOk: bool, writable: bool, n: nat)
    requires Live(e) && EndOk(log, r, e, n)
    ensures EndOk(log, r, FinishUpgrade(e, wrapOk, writable), n)
  {
  }

  lemma KeygenKept(log: seq<Frame>, r: Role, e: Endpoint, ok: bool, n: nat)
    requires Live(e) && EndOk(log, r, e, n) && FramesOk(log, n)
    ensures var x := FinishKeygen(e, ok, n); EndOk(log, r, x.e, n + x.pairs)
  {
    OtherEndKept(log, None, r, e, n, n + 1);
  }

  lemma CloseKept(log: seq<Frame>, r: Role, e: Endpoint, n: nat)
    requires Live(e) && EndOk(log, r, e, n)
    ensures EndOk(log, r, Ended(e), n)
    ensures EndOk(log, r, e.(page := None), n)
    ensures e.page.value.terminated ==> EndOk(log, r, e.(store := None), n)
  {
  }

  lemma GapKept(log: seq<Frame>, r: Role, e: Endpoint, n: nat)
    requires Live(e) && EndOk(log, r, e, n)
    ensures EndOk(log, r, OpenGap(e), n)
  {
  }

  lemma BeginKept(log: seq<Frame>, r: Role, e: Endpoint, n: nat)
    requires Live(e) && EndOk(log, r, e, n)
    ensures EndOk(log, r, BeginUpgrade(e), n)
  {
  }

  lemma EnqueueKept(log: seq<Frame>, r: Role, e: Endpoint, kind: RelayKind, data: nat, n: nat)
    requires Live(e) && EndOk(log, r, e, n)
    ensures EndOk(log, r, EnqueueApp(e, kind, data), n)
  {
  }

  /** The actions that seal nothing and generate no pair. */
  lemma QuietKept(log: seq<Frame>, r: Role, e: Endpoint, action: Action, n: nat)
    requires Live(e) && EndOk(log, r, e, n)
    requires !action.RunTask? && !action.Keygen? && !action.Deliver? && !action.Derive?
    ensures var x := ActLive(r, e, action, log, n); x == Still(x.e) && EndOk(log, r, x.e, n)
  {
    match action
    case Boot(_) =>
    case Handshake(_) =>
    case Crash => CloseKept(log, r, e, n);
    case FinalizeTermination => CloseKept(log, r, e, n);
    case Terminate => CloseKept(log, r, e, n);
    case AllowGap => GapKept(log, r, e, n);
    case Enqueue(kind, data) => EnqueueKept(log, r, e, kind, data, n);
    case UpgradeStart => BeginKept(log, r, e, n);
    case UpgradePersist(wrapOk, writable) => UpgradeKept(log, r, e, wrapOk, writable, n);
    case CommitSwitch(haveWrapKey) => SwitchKept(log, r, e, haveWrapKey, n);
    case CommitWrite(wrapOk, writable) => NewRecordKept(log, r, e, wrapOk, writable, n);
  }

  lemma LiveKept(log: seq<Frame>, r: Role, e: Endpoint, action: Action, n: nat)
    requires Live(e) && EndOk(log, r, e, n) && FramesOk(log, n)
    requires r == Joiner && !e.page.value.localPrf ==>
               !RekeyAllowed(log, e.page.value.active.value.key) && InitsAllowed(log)
    ensures var x := ActLive(r, e, action, log, n); EndOk(Extended(log, x.sealed), r, x.e, n + x.pairs)
  {
    hide EndOk;
    var x := ActLive(r, e, action, log, n);
    match action
    case RunTask(connected, writable, mw) =>
      if e.page.value.outbox != [] {
        RunHeadKept(log, r, e, connected, writable, mw, n);
        assert x == RunHead(r, e, connected, writable, mw) && x.pairs == 0;
      }
    case Keygen(ok) =>
      KeygenKept(log, r, e, ok, n);
      assert x == FinishKeygen(e, ok, n) && x.sealed == None;
    case Deliver(_, _, _, _, _) =>
      if !e.page.value.terminated && e.page.value.inbound == Ready {
        DeliverKept(log, r, e, action, n);
        assert x == Still(DeliverTo(r, e, log, action));
      }
    case Derive(ok) =>
      DeriveKept(log, r, e, ok, n);
      assert x == DeriveKey(e, ok, n) && x.sealed == None;
    case _ =>
      QuietKept(log, r, e, action, n);
  }

  // ---- the upgrade announcements -------------------------------------------------------------

  lemma AnnouncedKept(log: seq<Frame>, sealed: Option<Frame>, key: Key)
    ensures RekeyAllowed(log, key) ==> RekeyAllowed(Extended(log, sealed), key)
    ensures sealed.Some? && (sealed.value.sender == Initiator || sealed.value.kind != ModeUpgraded) ==>
              (RekeyAllowed(Extended(log, sealed), key) <==> RekeyAllowed(log, key))
  {
    var log' := Extended(log, sealed);
    assert forall i :: 0 <= i < |log| ==> log'[i] == log[i];
  }

  /** What a sealed frame says about the page that sealed it. */
  lemma SealedBy(log: seq<Frame>, r: Role, e: Endpoint, action: Action, n: nat)
    requires EndOk(log, r, e, n)
    ensures var x := Act(r, e, action, log, n);
            x.sealed.Some? ==>
              && Live(e) && action.RunTask? && e.page.value.outbox != []
              && x.sealed.value.sender == r
              && x.sealed.value.key == e.page.value.active.value.key
              && (x.sealed.value.kind == ModeUpgraded ==> e.page.value.localPrf)
              && (x.sealed.value.kind == RekeyInit && r == Initiator ==> e.page.value.peerPrf)
  {
    if Live(e) && action.RunTask? && e.page.value.outbox != [] {
      assert TaskOk(log, r, e.page.value, e.page.value.active.value, e.page.value.outbox[0], n);
    }
  }

  lemma CommitFacts(log: seq<Frame>, r: Role, e: Endpoint, n: nat)
    requires Live(e) && EndOk(log, r, e, n) && e.page.value.inbound.CommitNext?
    ensures e.page.value.localPrf && e.page.value.inbound.key.rekeyed
  {
  }

  datatype Modes = Modes(key: Key, localPrf: bool, peerPrf: bool)

  function ModesOf(e: Endpoint): Option<Modes> {
    if Live(e) then Some(Modes(e.page.value.active.value.key, e.page.value.localPrf, e.page.value.peerPrf)) else None
  }

  predicate SameModes(e: Endpoint, e': Endpoint) {
    ModesOf(e) == ModesOf(e')
  }

  lemma StartRekeyKeepsModes(r: Role, e: Endpoint, writable: bool)
    requires Live(e)
    ensures SameModes(e, Mark(e, writable))
    ensures SameModes(e, StartRekeyIfInitiator(r, e, writable))
  {
  }

  lemma AfterKeepsModes(r: Role, e: Endpoint, after: After, sent: bool, mw: bool)
    requires Live(e)
    ensures SameModes(e, RunAfter(r, e, after, sent, mw))
  {
    hide StartRekeyIfInitiator;
    StartRekeyKeepsModes(r, e, mw);
  }

  /** Running a send changes neither the key nor the two modes. */
  lemma SendKeepsModes(r: Role, e: Endpoint, connected: bool, writable: bool, mw: bool)
    requires Live(e) && e.page.value.outbox != []
    ensures SameModes(e, RunHead(r, e, connected, writable, mw).e)
  {
    hide RunAfter;
    var p := e.page.value;
    var t := p.outbox[0];
    var popped := e.(page := Some(p.(outbox := p.outbox[1..])));
    if p.terminated || !connected {
      AfterKeepsModes(r, popped, t.after, false, mw);
    } else {
      var o := Allocate(p.active.value, e.store, t.kind, writable);
      var e' := WithActive(popped, o);
      AfterKeepsModes(r, Ended(e'), t.after, false, mw);
      AfterKeepsModes(r, e', t.after, true, mw);
    }
  }

  function Learned(e: Endpoint, kind: RelayKind): Endpoint
    requires e.page.Some?
  {
    if kind == ModeUpgraded then e.(page := Some(e.page.value.(peerPrf := true))) else e
  }

  lemma OtherKeepsModes(r: Role, e: Endpoint, f: Frame, writable: bool)
    requires Live(e)
    ensures SameModes(Learned(e, f.kind), HandleOther(r, e, f, writable))
  {
    hide StartRekeyIfInitiator, Mark;
    match f.kind
    case ModeUpgraded => StartRekeyKeepsModes(r, Learned(e, ModeUpgraded), writable);
    case RekeyInit => StartRekeyKeepsModes(r, e.(page := Some(e.page.value.(rekeyInFlight := true))), writable);
    case _ =>
  }

  lemma TextKeepsModes(e: Endpoint, f: Frame, writable: bool)
    requires Live(e)
    ensures SameModes(e, HandleText(e, f, writable))
  {
  }

  /** Handling a frame changes neither the key nor the modes, except that an announcement turns on the peer's mode. */
  lemma HandleKeepsModes(r: Role, e: Endpoint, f: Frame, wellFormed: bool, writable: bool)
    requires Live(e)
    ensures SameModes(Learned(e, f.kind), Handle(r, e, f, wellFormed, writable))
  {
    hide HandleOther, HandleText;
    if f.kind == Msg {
      TextKeepsModes(e, f, writable);
    } else {
      var p := e.page.value;
      var e' := e.(page := Some(p.(active := Some(p.active.value.(recv := f.counter)),
                                   accepted := p.accepted + [f])));
      OtherKeepsModes(r, e', f, writable);
      assert SameModes(Learned(e, f.kind), Learned(e', f.kind));
    }
  }

  lemma DeliverKeepsModes(r: Role, e: Endpoint, log: seq<Frame>, action: Action)
    requires Live(e) && action.Deliver?
    ensures var e' := DeliverTo(r, e, log, action);
            || SameModes(e, e')
            || (&& SameModes(Learned(e, ModeUpgraded), e')
                && exists f :: f in log && f.sender == r.Peer() && f.kind == ModeUpgraded
                               && f.key == e.page.value.active.value.key)
  {
    hide Handle, Validate, SameModes, Learned;
    var p := e.page.value;
    var a := p.active.value;
    var taken := e.(page := Some(p.(active := Some(a.(mode := Strict)))));
    ValidateMeaning(log, r, a, action.kind, action.nonce, action.box);
    StrictKeepsModes(e, taken);
    match Validate(log, r, a, action.kind, action.nonce, action.box)
    case Opened(f) =>
      HandleKeepsModes(r, taken, f, action.wellFormed, action.writable);
      ModesOn(e, taken, f.kind, Handle(r, taken, f, action.wellFormed, action.writable));
    case _ =>
  }

  lemma StrictKeepsModes(e: Endpoint, taken: Endpoint)
    requires Live(e)
    requires taken == e.(page := Some(e.page.value.(active := Some(e.page.value.active.value.(mode := Strict)))))
    ensures SameModes(e, Ended(taken)) && ModesOf(e) == ModesOf(taken)
  {
  }

  lemma ModesOn(e: Endpoint, taken: Endpoint, kind: RelayKind, e': Endpoint)
    requires Live(e) && Live(taken) && ModesOf(e) == ModesOf(taken) && SameModes(Learned(taken, kind), e')
    ensures if kind == ModeUpgraded then SameModes(Learned(e, ModeUpgraded), e') else SameModes(e, e')
  {
  }

  lemma LocalKeepsModes(e: Endpoint, kind: RelayKind, data: nat)
    requires Live(e)
    ensures SameModes(e, OpenGap(e)) && SameModes(e, EnqueueApp(e, kind, data)) && SameModes(e, BeginUpgrade(e))
  {
  }

  lemma KeygenKeepsModes(e: Endpoint, ok: bool, n: nat)
    requires Live(e)
    ensures SameModes(e, FinishKeygen(e, ok, n).e)
  {
  }

  lemma DeriveKeepsModes(e: Endpoint, ok: bool, n: nat)
    requires Live(e)
    ensures SameModes(e, DeriveKey(e, ok, n).e)
  {
    hide Agree;
    if e.page.value.inbound.JoinerDerive? {
      if !ok || e.page.value.inbound.peerPub == n {
      }
    } else if e.page.value.inbound.InitiatorDerive? {
    }
  }

  lemma RecordKeepsModes(e: Endpoint, ok: bool, writable: bool)
    requires Live(e)
    ensures SameModes(e, WriteNewRecord(e, ok, writable))
  {
  }

  /** Any other action keeps key and modes too, except the two that finish an upgrade or a rekey. */
  lemma OthersKeepModes(r: Role, e: Endpoint, log: seq<Frame>, action: Action, n: nat)
    requires Live(e) && !action.RunTask? && !action.Deliver? && !action.UpgradePersist? && !action.CommitSwitch?
    ensures var e' := ActLive(r, e, action, log, n).e; Live(e') ==> SameModes(e, e')
  {
    hide OpenGap, EnqueueApp, BeginUpgrade, FinishKeygen, DeriveKey, WriteNewRecord;
    match action
    case Enqueue(kind, data) => LocalKeepsModes(e, kind, data);
    case AllowGap => LocalKeepsModes(e, Msg, 0);
    case UpgradeStart => LocalKeepsModes(e, Msg, 0);
    case Keygen(ok) => KeygenKeepsModes(e, ok, n);
    case Derive(ok) => DeriveKeepsModes(e, ok, n);
    case CommitWrite(wrapOk, writable) => RecordKeepsModes(e, wrapOk, writable);
    case _ =>
  }

  /** A page in memory-only mode stays so only with the same key. */
  predicate RamHolds(e: Endpoint, e': Endpoint)
    requires Live(e)
  {
    Live(e') && !e'.page.value.localPrf ==>
      !e.page.value.localPrf && e'.page.value.active.value.key == e.page.value.active.value.key
  }

  lemma SameModesHoldRam(e: Endpoint, e': Endpoint)
    requires Live(e)
    ensures Live(e') && SameModes(e, e') ==> RamHolds(e, e')
    ensures Live(e') && SameModes(Learned(e, ModeUpgraded), e') ==> RamHolds(e, e')
  {
  }

  lemma CommitsHoldRam(r: Role, e: Endpoint, log: seq<Frame>, action: Action, n: nat)
    requires Live(e) && (e.page.value.inbound.CommitNext? ==> e.page.value.localPrf)
    requires action.UpgradePersist? || action.CommitSwitch?
    ensures RamHolds(e, ActLive(r, e, action, log, n).e)
  {
  }

  lemma SendsHoldRam(r: Role, e: Endpoint, log: seq<Frame>, action: Action, n: nat)
    requires Live(e) && (action.RunTask? || action.Deliver?)
    ensures RamHolds(e, ActLive(r, e, action, log, n).e)
  {
    hide RunHead, DeliverTo, SameModes, Learned;
    SameModesHoldRam(e, ActLive(r, e, action, log, n).e);
    if action.RunTask? {
      if e.page.value.outbox != [] {
        SendKeepsModes(r, e, action.connected, action.writable, action.markerWritable);
      }
    } else {
      DeliverKeepsModes(r, e, log, action);
    }
  }

  /** A page stays in memory-only mode only while it keeps its handshake key. */
  lemma RamKeepsKey(log: seq<Frame>, r: Role, e: Endpoint, action: Action, n: nat)
    requires Live(e)
    requires e.page.value.inbound.CommitNext? ==> e.page.value.localPrf
    ensures RamHolds(e, ActLive(r, e, action, log, n).e)
  {
    hide ActLive, SameModes, RamHolds;
    if action.RunTask? || action.Deliver? {
      SendsHoldRam(r, e, log, action, n);
    } else if action.UpgradePersist? || action.CommitSwitch? {
      CommitsHoldRam(r, e, log, action, n);
    } else {
      OthersKeepModes(r, e, log, action, n);
      RamOfOthers(e, ActLive(r, e, action, log, n).e);
    }
  }

  lemma RamOfOthers(e: Endpoint, e': Endpoint)
    requires Live(e) && (Live(e') ==> SameModes(e, e'))
    ensures RamHolds(e, e')
  {
  }

  /** A page learns of its peer's upgrade only from the peer's announcement under the key in use. */
  lemma PeerModeLearned(log: seq<Frame>, e: Endpoint, action: Action, n: nat)
    requires Live(e)
    requires e.page.value.inbound.CommitNext? ==> e.page.value.inbound.key.rekeyed
    ensures var x := ActLive(Initiator, e, action, log, n);
            Live(x.e) && x.e.page.value.peerPrf ==>
              var key := x.e.page.value.active.value.key;
              || (e.page.value.peerPrf && key == e.page.value.active.value.key)
              || RekeyAllowed(log, key)
  {
    hide RunHead, DeliverTo;
    if action.RunTask? && e.page.value.outbox != [] {
      SendKeepsModes(Initiator, e, action.connected, action.writable, action.markerWritable);
    } else if action.Deliver? {
      DeliverKeepsModes(Initiator, e, log, action);
    } else if !action.RunTask? && !action.UpgradePersist? && !action.CommitSwitch? {
      OthersKeepModes(Initiator, e, log, action, n);
    }
  }

  // ---- every run -----------------------------------------------------------------------------

  lemma EndKept(w: World, ev: Event)
    requires Inv(w)
    ensures var w' := Step(w, ev);
            EndOk(w'.log, Initiator, w'.initiator, w'.nextPair) && EndOk(w'.log, Joiner, w'.joiner, w'.nextPair)
  {
    hide EndOk, ActLive, ActOffline, ActBeforeActive, FramesOk, CountersGrow, InitsAllowed, RekeyAllowed;
    var r := ev.role;
    var e := w.At(r);
    var x := Act(r, e, ev.action, w.log, w.nextPair);
    SealedBy(w.log, r, e, ev.action, w.nextPair);
    OtherEndKept(w.log, x.sealed, r.Peer(), w.At(r.Peer()), w.nextPair, w.nextPair + x.pairs);
    if e.page.None? {
      OfflineKept(w.log, r, e, ev.action, w.nextPair);
    } else if e.page.value.active.None? {
      BeforeActiveKept(w.log, r, e, ev.action, w.nextPair);
    } else {
      LiveKept(w.log, r, e, ev.action, w.nextPair);
    }
  }

  lemma FramesKept(w: World, ev: Event)
    requires Inv(w)
    ensures var w' := Step(w, ev); CountersGrow(w'.log) && FramesOk(w'.log, w'.nextPair)
  {
    hide EndOk, RunHead, ActOffline, ActBeforeActive;
    var r := ev.role;
    var e := w.At(r);
    SealedBy(w.log, r, e, ev.action, w.nextPair);
    if Live(e) && ev.action.RunTask? && e.page.value.outbox != [] {
      RunHeadLogKept(w.log, r, e, ev.action.connected, ev.action.writable, ev.action.markerWritable, w.nextPair);
    }
  }

  lemma JoinerKept(w: World, ev: Event)
    requires Inv(w)
    ensures JoinerUpgradesFirst(Step(w, ev))
  {
    var r := ev.role;
    var e := w.At(r);
    var x := Act(r, e, ev.action, w.log, w.nextPair);
    SealedBy(w.log, r, e, ev.action, w.nextPair);
    if r == Joiner && Live(x.e) && !x.e.page.value.localPrf {
      var key := x.e.page.value.active.value.key;
      AnnouncedKept(w.log, x.sealed, key);
      if Live(e) {
        if e.page.value.inbound.CommitNext? {
          CommitFacts(w.log, r, e, w.nextPair);
        }
        RamKeepsKey(w.log, r, e, ev.action, w.nextPair);
      } else {
        assert e.page.Some? && Mentions(key, e.page.value.own) && !key.rekeyed;
      }
    } else if r == Initiator && Live(w.joiner) {
      AnnouncedKept(w.log, x.sealed, w.joiner.page.value.active.value.key);
    }
  }

  lemma InitiatorKept(w: World, ev: Event)
    requires Inv(w)
    ensures InitiatorWaits(Step(w, ev))
  {
    var r := ev.role;
    var e := w.At(r);
    var x := Act(r, e, ev.action, w.log, w.nextPair);
    if r == Initiator && Live(x.e) {
      AnnouncedKept(w.log, x.sealed, x.e.page.value.active.value.key);
      if Live(e) {
        if e.page.value.inbound.CommitNext? {
          CommitFacts(w.log, r, e, w.nextPair);
        }
        PeerModeLearned(w.log, e, ev.action, w.nextPair);
      }
    } else if r == Joiner && Live(w.initiator) {
      AnnouncedKept(w.log, x.sealed, w.initiator.page.value.active.value.key);
    }
  }

  lemma InitsKept(w: World, ev: Event)
    requires Inv(w)
    ensures InitsAllowed(Step(w, ev).log)
  {
    var r := ev.role;
    var x := Act(r, w.At(r), ev.action, w.log, w.nextPair);
    var log' := Step(w, ev).log;
    SealedBy(w.log, r, w.At(r), ev.action, w.nextPair);
    forall i | 0 <= i < |log'| && log'[i].sender == Initiator && log'[i].kind == RekeyInit
      ensures RekeyAllowed(log', log'[i].key)
    {
      AnnouncedKept(w.log, x.sealed, log'[i].key);
      if i < |w.log| {
        assert log'[i] == w.log[i];
      }
    }
  }

  lemma StepKept(w: World, ev: Event)
    requires Inv(w)
    ensures Inv(Step(w, ev))
  {
    EndKept(w, ev);
    FramesKept(w, ev);
    JoinerKept(w, ev);
    InitiatorKept(w, ev);
    InitsKept(w, ev);
    hide Step, EndOk, CountersGrow, FramesOk, JoinerUpgradesFirst, InitiatorWaits, InitsAllowed;
  }

  lemma {:induction false} RunKept(events: seq<Event>)
    ensures Inv(Run(events))
  {
    if events != [] {
      RunKept(events[..|events| - 1]);
      StepKept(Run(events[..|events| - 1]), events[|events| - 1]);
      hide Step, Inv;
    }
  }

  /** Two frames were sealed with nonces, and not with the same one under the same key. */
  ghost predicate SealedApart(f: Frame, g: Frame) {
    NonceOf(f).Some? && NonceOf(g).Some? && !(f.key == g.key && NonceOf(f) == NonceOf(g))
  }

  /** No two of the frames share key and nonce. */
  ghost predicate NoncesUnique(log: seq<Frame>) {
    forall i, j :: 0 <= i < j < |log| ==> SealedApart(log[i], log[j])
  }

  lemma GrowingIsUnique(log: seq<Frame>, nextPair: nat)
    requires CountersGrow(log) && FramesOk(log, nextPair)
    ensures NoncesUnique(log)
  {
    forall i, j | 0 <= i < j < |log|
      ensures SealedApart(log[i], log[j])
    {
      if log[i].key == log[j].key && NonceOf(log[i]) == NonceOf(log[j]) {
        MakeNonceInjective(DirectionForRole(log[i].sender), log[i].counter,
                           DirectionForRole(log[j].sender), log[j].counter);
      }
    }
  }

  /**
   In every run of both ends, no two sealed frames share key and nonce: whatever crashes, reloads, resumes,
   failed writes, upgrades and rekeys happen, a counter is never taken twice under one key and direction.
   */
  lemma NonceNeverReused(events: seq<Event>)
    ensures NoncesUnique(Run(events).log)
  {
    RunKept(events);
    GrowingIsUnique(Run(events).log, Run(events).nextPair);
  }

  /**
   In every run, a stored record that startup would resume (no rekey marker) is at least as far as every
   counter its owner has used under the key it wraps; the sender restarts above all of them.
   */
  lemma ResumableRecordIsAhead(events: seq<Event>, r: Role, i: nat)
    requires Run(events).At(r).store.Some? && !Run(events).At(r).store.value.rekeying
    requires i < |Run(events).log| && Run(events).log[i].sender == r
    requires Run(events).log[i].key == Run(events).At(r).store.value.key
    ensures Run(events).log[i].counter <= Run(events).At(r).store.value.send
    ensures Run(events).log[i].counter <= Restore(Run(events).At(r).store.value).committed
  {
    RunKept(events);
  }

  /** A live page with nothing queued sends a text: it takes the next counter of its key, in its role's direction. */
  lemma SendsNext(r: Role, e: Endpoint, data: nat, log: seq<Frame>, n: nat)
    requires Live(e) && !e.page.value.terminated && e.page.value.outbox == []
    requires e.page.value.active.value.committed < MAX_COUNTER
    ensures var a := e.page.value.active.value;
            var queued := Act(r, e, Action.Enqueue(Msg, data), log, n);
            var x := Act(r, queued.e, RunTask(true, true, true), log, n);
            && queued.sealed == None && queued.pairs == 0 && x.pairs == 0
            && x.sealed == Some(Frame(a.key, r, a.committed + 1, Msg, App(data)))
            && Live(x.e) && !x.e.page.value.terminated && x.e.page.value.outbox == []
            && x.e.page.value.active.value.key == a.key
            && x.e.page.value.active.value.committed == a.committed + 1
  {
  }
}
