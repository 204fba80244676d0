/**
 What a page is given to send and what it seals: the texts and chunks sealed in a page's life carry the payloads queued
 in it, in the order they were queued, and none is lost as long as the connection holds and the session goes on.
 */
module SessionQueue {
  import opened Bytes
  import opened Nonce
  import opened Wire
  import opened Channel
  import opened Session
  import opened SessionSafety

  /** A text or a chunk, as the application hands it over. */
  datatype Item = Item(kind: RelayKind, payload: Payload)

  predicate IsApp(kind: RelayKind) {
    kind == Msg || kind == Chunk
  }

  /** The items waiting in a send queue. */
  function Waiting(outbox: seq<Task>): seq<Item> {
    if outbox == [] then []
    else
      var last := outbox[|outbox| - 1];
      Waiting(outbox[..|outbox| - 1]) + (if IsApp(last.kind) then [Item(last.kind, last.payload)] else [])
  }

  function ItemOf(f: Option<Frame>): seq<Item> {
    if f.Some? && IsApp(f.value.kind) then [Item(f.value.kind, f.value.payload)] else []
  }

  /** The event hands an item to a live page that has not ended. */
  predicate Hands(e: Endpoint, action: Action) {
    Live(e) && !e.page.value.terminated && action.Enqueue? && IsApp(action.kind)
  }

  /** What `r`'s current page was handed, in order. */
  function Queued(events: seq<Event>, r: Role): seq<Item> {
    if events == [] then []
    else
      var n := |events| - 1;
      var e := Run(events[..n]).At(r);
      if e.page.None? || Run(events).At(r).page.None? then []
      else if events[n].role == r && Hands(e, events[n].action)
      then Queued(events[..n], r) + [Item(events[n].action.kind, App(events[n].action.data))]
      else Queued(events[..n], r)
  }

  /** The frame the last event added to the log, if it is `r`'s. */
  function NewFrame(log: seq<Frame>, log': seq<Frame>, r: Role): Option<Frame> {
    if |log'| == |log| + 1 && log'[|log|].sender == r then Some(log'[|log|]) else None
  }

  /** The items in the frames `r`'s current page has sealed, in order. */
  function SealedItems(events: seq<Event>, r: Role): seq<Item> {
    if events == [] then []
    else
      var n := |events| - 1;
      if Run(events[..n]).At(r).page.None? || Run(events).At(r).page.None? then []
      else SealedItems(events[..n], r) + ItemOf(NewFrame(Run(events[..n]).log, Run(events).log, r))
  }

  /** `a` is `b` with some items left out. */
  predicate Within(a: seq<Item>, b: seq<Item>)
    decreases |b|
  {
    if a == [] then true
    else if b == [] then false
    else
      || Within(a, b[..|b| - 1])
      || (a[|a| - 1] == b[|b| - 1] && Within(a[..|a| - 1], b[..|b| - 1]))
  }

  // ---- lists --------------------------------------------------------------------------------------------------

  lemma WaitingPush(outbox: seq<Task>, t: Task)
    ensures Waiting(outbox + [t]) == Waiting(outbox) + (if IsApp(t.kind) then [Item(t.kind, t.payload)] else [])
  {
    assert (outbox + [t])[..|outbox|] == outbox;
  }

  lemma {:induction false} WaitingPop(outbox: seq<Task>)
    requires outbox != []
    ensures Waiting(outbox) == (if IsApp(outbox[0].kind) then [Item(outbox[0].kind, outbox[0].payload)] else [])
                               + Waiting(outbox[1..])
  {
    var n := |outbox| - 1;
    if n == 0 {
      assert Waiting(outbox[1..]) == [] && Waiting(outbox[..n]) == [];
    } else {
      WaitingPop(outbox[..n]);
      assert outbox[..n][1..] == outbox[1..][..n - 1];
    }
  }

  lemma {:induction false} WithinPush(a: seq<Item>, b: seq<Item>, x: Item)
    requires Within(a, b)
    ensures Within(a + [x], b + [x])
  {
    assert (a + [x])[..|a|] == a && (b + [x])[..|b|] == b;
  }

  /** One item fewer in the middle. */
  lemma {:induction false} WithinDrop(a: seq<Item>, x: seq<Item>, c: seq<Item>, b: seq<Item>)
    requires Within(a + x + c, b)
    ensures Within(a + c, b)
    decreases |b|
  {
    if a + c == [] {
    } else if Within(a + x + c, b[..|b| - 1]) {
      WithinDrop(a, x, c, b[..|b| - 1]);
    } else {
      var whole := a + x + c;
      if c != [] {
        var c' := c[..|c| - 1];
        assert whole[..|whole| - 1] == a + x + c';
        WithinDrop(a, x, c', b[..|b| - 1]);
        assert (a + c)[..|a + c| - 1] == a + c';
      } else {
        assert c == [] && a + c == a && whole == a + x;
        DropTail(a, x, b);
      }
    }
  }

  lemma {:induction false} DropTail(a: seq<Item>, x: seq<Item>, b: seq<Item>)
    requires Within(a + x, b)
    ensures Within(a, b)
    decreases |b|
  {
    if a == [] || x == [] {
      assert x == [] ==> a + x == a;
    } else if Within(a + x, b[..|b| - 1]) {
      DropTail(a, x, b[..|b| - 1]);
    } else {
      assert (a + x)[..|a + x| - 1] == a + x[..|x| - 1];
      DropTail(a, x[..|x| - 1], b[..|b| - 1]);
    }
  }

  // ---- one event ----------------------------------------------------------------------------------------------

  function OutboxOf(e: Endpoint): seq<Task> {
    if e.page.Some? then e.page.value.outbox else []
  }

  /** The queue after the event: the same items, or one more at the end. */
  ghost predicate SameItems(e: Endpoint, e': Endpoint) {
    e'.page.Some? ==> Waiting(OutboxOf(e')) == Waiting(OutboxOf(e))
  }

  lemma StartRekeySame(r: Role, e: Endpoint, writable: bool)
    requires Live(e)
    ensures Mark(e, writable).page.Some? && OutboxOf(Mark(e, writable)) == OutboxOf(e)
    ensures OutboxOf(StartRekeyIfInitiator(r, e, writable)) == OutboxOf(e)
  {
  }

  lemma AfterSame(r: Role, e: Endpoint, after: After, mw: bool)
    requires Live(e)
    ensures forall sent :: OutboxOf(RunAfter(r, e, after, sent, mw)) == OutboxOf(e)
  {
    hide StartRekeyIfInitiator;
    StartRekeySame(r, e, mw);
  }

  /** The head of the queue goes; it is what is sealed, if anything is. */
  lemma SendTakesHead(r: Role, e: Endpoint, connected: bool, writable: bool, mw: bool)
    requires Live(e) && e.page.value.outbox != []
    ensures var x := RunHead(r, e, connected, writable, mw);
      var t := e.page.value.outbox[0];
      && x.e.page.Some? && OutboxOf(x.e) == e.page.value.outbox[1..]
      && (x.sealed.Some? ==> x.sealed.value.sender == r && x.sealed.value.kind == t.kind && x.sealed.value.payload == t.payload)
      && (connected && !x.e.page.value.terminated ==> x.sealed.Some?)
  {
    hide RunAfter, Allocate;
    var p := e.page.value;
    var t := p.outbox[0];
    var popped := e.(page := Some(p.(outbox := p.outbox[1..])));
    AfterSame(r, popped, t.after, mw);
    AfterEnds(r, popped, t.after, mw);
    var e' := WithActive(popped, Allocate(p.active.value, e.store, t.kind, writable));
    AfterSame(r, e', t.after, mw);
    AfterSame(r, Ended(e'), t.after, mw);
    AfterEnds(r, Ended(e'), t.after, mw);
    AfterEnds(r, e', t.after, mw);
  }

  /** A page that has ended stays ended. */
  lemma AfterEnds(r: Role, e: Endpoint, after: After, mw: bool)
    requires Live(e)
    ensures forall sent :: var e' := RunAfter(r, e, after, sent, mw);
      e'.page.Some? && (e.page.value.terminated ==> e'.page.value.terminated)
  {
  }

  lemma DeliverSame(r: Role, e: Endpoint, log: seq<Frame>, action: Action)
    requires Live(e) && action.Deliver?
    ensures OutboxOf(DeliverTo(r, e, log, action)) == OutboxOf(e)
  {
    hide Validate, Handle;
    var taken := e.(page := Some(e.page.value.(active := Some(e.page.value.active.value.(mode := Strict)))));
    match Validate(log, r, e.page.value.active.value, action.kind, action.nonce, action.box)
    case Opened(f) => HandleSame(r, taken, f, action.wellFormed, action.writable);
    case _ =>
  }

  lemma HandleSame(r: Role, e: Endpoint, f: Frame, wellFormed: bool, writable: bool)
    requires Live(e)
    ensures OutboxOf(Handle(r, e, f, wellFormed, writable)) == OutboxOf(e)
  {
    hide HandleOther, NoteText;
    if f.kind != Msg {
      var p := e.page.value;
      OtherSame(r, e.(page := Some(p.(active := Some(p.active.value.(recv := f.counter)), accepted := p.accepted + [f]))),
                f, writable);
    }
  }

  lemma OtherSame(r: Role, e: Endpoint, f: Frame, writable: bool)
    requires Live(e)
    ensures OutboxOf(HandleOther(r, e, f, writable)) == OutboxOf(e)
  {
    hide StartRekeyIfInitiator, Mark;
    match f.kind
    case ModeUpgraded => StartRekeySame(r, Learned(e, ModeUpgraded), writable);
    case RekeyInit => StartRekeySame(r, e.(page := Some(e.page.value.(rekeyInFlight := true))), writable);
    case _ =>
  }

  /** What the handlers queue themselves are frames of the rekey and upgrade, not items. */
  lemma PushedSame(outbox: seq<Task>, t: Task)
    requires !IsApp(t.kind)
    ensures Waiting(outbox + [t]) == Waiting(outbox)
  {
    WaitingPush(outbox, t);
  }

  lemma KeygenSame(e: Endpoint, ok: bool, n: nat)
    requires Live(e)
    ensures SameItems(e, FinishKeygen(e, ok, n).e) && FinishKeygen(e, ok, n).sealed == None
  {
    PushedSame(e.page.value.outbox, Task(RekeyInit, PublicKey(n), Done));
    hide Waiting;
  }

  lemma DeriveSame(e: Endpoint, ok: bool, n: nat)
    requires Live(e)
    ensures SameItems(e, DeriveKey(e, ok, n).e) && DeriveKey(e, ok, n).sealed == None
  {
    hide Agree, Waiting;
    var p := e.page.value;
    if p.inbound.JoinerDerive? {
      PushedSame(p.outbox, Task(RekeyAck, PublicKey(n), Commit(Agree(n, p.inbound.peerPub, true))));
    }
  }

  lemma CommitSame(e: Endpoint)
    requires Live(e)
    ensures SameItems(e, FinishCommit(e))
  {
    PushedSame(e.page.value.outbox, Task(RekeyDone, Nothing, Done));
    hide Waiting;
  }

  lemma SwitchSame(e: Endpoint, ok: bool)
    requires Live(e)
    ensures SameItems(e, SwitchToNewKey(e, ok))
  {
    hide Waiting, FinishCommit;
    var p := e.page.value;
    if p.inbound.CommitNext? {
      CommitSame(e.(page := Some(p.(active := Some(SwitchKey(p.active.value, p.inbound.key))))));
    }
  }

  lemma WriteSame(e: Endpoint, ok: bool, writable: bool)
    requires Live(e)
    ensures SameItems(e, WriteNewRecord(e, ok, writable))
  {
    hide Waiting, FinishCommit, InstallRecord;
    var p := e.page.value;
    if p.inbound.CommitPersist? {
      CommitSame(WithActive(e, InstallRecord(p.active.value, e.store, p.inbound.key, true, writable && !p.terminated)));
    }
  }

  lemma UpgradeSame(e: Endpoint, ok: bool, writable: bool)
    requires Live(e)
    ensures SameItems(e, FinishUpgrade(e, ok, writable))
  {
    PushedSame(e.page.value.outbox, Task(ModeUpgraded, Nothing, MaybeRekey));
    hide Waiting, InstallRecord;
  }

  /** The item at the head is gone and nothing was sealed. */
  ghost predicate Lost(e: Endpoint, x: Effect) {
    exists i: Item :: Waiting(OutboxOf(e)) == [i] + Waiting(OutboxOf(x.e))
  }

  /** What one event does to the queue of the page it meets. */
  ghost predicate Moved(e: Endpoint, action: Action, x: Effect)
    requires x.e.page.Some?
  {
    if e.page.None? then x.sealed == None && OutboxOf(x.e) == []
    else if Hands(e, action) then
      x.sealed == None && Waiting(OutboxOf(x.e)) == Waiting(OutboxOf(e)) + [Item(action.kind, App(action.data))]
    else if x.sealed.Some? then Waiting(OutboxOf(e)) == ItemOf(x.sealed) + Waiting(OutboxOf(x.e))
    else
      || Waiting(OutboxOf(x.e)) == Waiting(OutboxOf(e))
      || ((x.e.page.value.terminated || (action.RunTask? && !action.connected)) && Lost(e, x))
  }

  ghost predicate QueueStep(r: Role, e: Endpoint, action: Action, x: Effect) {
    && (x.sealed.Some? ==> x.sealed.value.sender == r)
    && (x.e.page.Some? ==> Moved(e, action, x))
  }

  lemma SendStep(r: Role, e: Endpoint, action: Action)
    requires Live(e) && action.RunTask? && e.page.value.outbox != []
    ensures QueueStep(r, e, action, RunHead(r, e, action.connected, action.writable, action.markerWritable))
  {
    hide RunHead, Waiting;
    SendTakesHead(r, e, action.connected, action.writable, action.markerWritable);
    WaitingPop(e.page.value.outbox);
    var t := e.page.value.outbox[0];
    var x := RunHead(r, e, action.connected, action.writable, action.markerWritable);
    if x.sealed.None? && IsApp(t.kind) {
      assert Waiting(OutboxOf(e)) == [Item(t.kind, t.payload)] + Waiting(OutboxOf(x.e));
    }
  }

  lemma ActQueue(r: Role, e: Endpoint, action: Action, log: seq<Frame>, n: nat)
    ensures QueueStep(r, e, action, Act(r, e, action, log, n))
  {
    hide RunHead, DeliverTo, FinishUpgrade, FinishKeygen, DeriveKey, SwitchToNewKey, WriteNewRecord, Waiting;
    if Live(e) {
      match action
      case RunTask(connected, writable, mw) =>
        if e.page.value.outbox != [] {
          SendStep(r, e, action);
        }
      case Deliver(_, _, _, _, _) => DeliverSame(r, e, log, action);
      case UpgradePersist(ok, writable) => UpgradeSame(e, ok, writable);
      case Keygen(ok) => KeygenSame(e, ok, n);
      case Derive(ok) => DeriveSame(e, ok, n);
      case CommitSwitch(ok) => SwitchSame(e, ok);
      case CommitWrite(ok, writable) => WriteSame(e, ok, writable);
      case Enqueue(kind, data) => WaitingPush(e.page.value.outbox, Task(kind, App(data), Done));
      case _ =>
    }
  }

  // ---- the promises -------------------------------------------------------------------------------------------

  lemma StepLog(w: World, ev: Event)
    ensures var x := Act(ev.role, w.At(ev.role), ev.action, w.log, w.nextPair);
      && Step(w, ev).log == (if x.sealed.Some? then w.log + [x.sealed.value] else w.log)
      && Step(w, ev).At(ev.role) == x.e && Step(w, ev).At(ev.role.Peer()) == w.At(ev.role.Peer())
  {
    hide Act;
  }

  /** One step: what is sealed and still waiting goes on being a part of what was queued. */
  lemma StepInOrder(sealed: seq<Item>, waiting: seq<Item>, queued: seq<Item>, r: Role, e: Endpoint, action: Action, x: Effect)
    requires e.page.Some? && x.e.page.Some? && QueueStep(r, e, action, x) && Within(sealed + waiting, queued)
    requires waiting == Waiting(OutboxOf(e))
    ensures Within(sealed + ItemOf(x.sealed) + Waiting(OutboxOf(x.e)),
                   if Hands(e, action) then queued + [Item(action.kind, App(action.data))] else queued)
  {
    hide Waiting, Within, OutboxOf;
    var waiting' := Waiting(OutboxOf(x.e));
    assert x.sealed.None? ==> sealed + ItemOf(x.sealed) == sealed;
    if Hands(e, action) {
      var i := Item(action.kind, App(action.data));
      WithinPush(sealed + waiting, queued, i);
      assert sealed + waiting' == sealed + waiting + [i];
    } else if x.sealed.Some? {
      assert sealed + ItemOf(x.sealed) + waiting' == sealed + waiting;
    } else if waiting' != waiting {
      assert Lost(e, x);
      var i :| waiting == [i] + waiting';
      assert sealed + [i] + waiting' == sealed + waiting;
      WithinDrop(sealed, [i], waiting', queued);
    }
  }

  lemma NothingWaits(e: Endpoint)
    requires e.page.None?
    ensures Waiting(OutboxOf(e)) == [] && Within([], [])
  {
  }

  /** A page that has just started has nothing to send. */
  lemma StartsEmpty(e: Endpoint, action: Action, x: Effect)
    requires e.page.None? && x.e.page.Some? && Moved(e, action, x)
    ensures Waiting(OutboxOf(x.e)) == [] && Within([], [])
  {
  }

  /** The frame an event seals is the one it adds to the log. */
  lemma SealedIsNew(w: World, ev: Event, r: Role)
    requires var x := Act(ev.role, w.At(ev.role), ev.action, w.log, w.nextPair);
      x.sealed.Some? ==> x.sealed.value.sender == ev.role
    ensures NewFrame(w.log, Step(w, ev).log, r)
            == if ev.role == r then Act(ev.role, w.At(ev.role), ev.action, w.log, w.nextPair).sealed else None
  {
    hide Act;
    StepLog(w, ev);
  }

  /**
   In every run, what a page has sealed, followed by what still waits in its queue, is what it was handed with perhaps
   some items left out: nothing is reordered, changed, repeated or invented.
   */
  lemma {:induction false} SealedAndWaitingInOrder(events: seq<Event>, r: Role)
    ensures Within(SealedItems(events, r) + Waiting(OutboxOf(Run(events).At(r))), Queued(events, r))
  {
    hide Act, Step, Within, QueueStep, Moved, Waiting, OutboxOf, Hands, NewFrame;
    NothingWaits(Start.At(r));
    if events == [] {
      assert SealedItems(events, r) + Waiting(OutboxOf(Run(events).At(r))) == [];
    } else {
      var n := |events| - 1;
      var w, ev := Run(events[..n]), events[n];
      var e, e' := w.At(r), Run(events).At(r);
      SealedAndWaitingInOrder(events[..n], r);
      StepFacts(w, ev, r);
      if e'.page.None? {
        NothingWaits(e');
        assert SealedItems(events, r) + Waiting(OutboxOf(e')) == [];
      } else if e.page.None? {
        assert SealedItems(events, r) + Waiting(OutboxOf(e')) == [];
      } else if ev.role == r {
        StepInOrder(SealedItems(events[..n], r), Waiting(OutboxOf(e)), Queued(events[..n], r), r, e, ev.action,
                    Act(r, e, ev.action, w.log, w.nextPair));
      } else {
        assert SealedItems(events[..n], r) + [] == SealedItems(events[..n], r);
      }
    }
  }

  /** What the proof needs of one step at `r`'s end. */
  lemma StepFacts(w: World, ev: Event, r: Role)
    ensures var e' := Step(w, ev).At(r);
      if ev.role == r then
        var x := Act(r, w.At(r), ev.action, w.log, w.nextPair);
        && e' == x.e && QueueStep(r, w.At(r), ev.action, x)
        && NewFrame(w.log, Step(w, ev).log, r) == x.sealed
        && (w.At(r).page.None? && e'.page.Some? ==> Waiting(OutboxOf(e')) == [] && Within([], []))
      else e' == w.At(r) && NewFrame(w.log, Step(w, ev).log, r) == None
  {
    hide Act, Step, NewFrame, Moved, OutboxOf;
    StepLog(w, ev);
    var x := Act(ev.role, w.At(ev.role), ev.action, w.log, w.nextPair);
    ActQueue(ev.role, w.At(ev.role), ev.action, w.log, w.nextPair);
    SealedIsNew(w, ev, r);
    if w.At(ev.role).page.None? && x.e.page.Some? {
      StartsEmpty(w.At(ev.role), ev.action, x);
    }
    assert ev.role != r ==> r == ev.role.Peer();
  }

  /** `r`'s page, if there is one, has not ended. */
  predicate GoesOn(e: Endpoint) {
    e.page.Some? ==> !e.page.value.terminated
  }

  /**
   As long as the session has not ended and the connection was up at every send, nothing is left out: what a page has
   sealed, followed by what still waits, is exactly what it was handed.
   */
  lemma {:induction false} NothingIsLostWhileItGoesOn(events: seq<Event>, r: Role)
    requires forall k | 0 <= k <= |events| :: GoesOn(Run(events[..k]).At(r))
    requires forall ev | ev in events && ev.role == r && ev.action.RunTask? :: ev.action.connected
    ensures SealedItems(events, r) + Waiting(OutboxOf(Run(events).At(r))) == Queued(events, r)
  {
    hide Act, Step, Within, Waiting, OutboxOf, Hands, NewFrame;
    NothingWaits(Start.At(r));
    if events != [] {
      var n := |events| - 1;
      var w, ev := Run(events[..n]), events[n];
      var e, e' := w.At(r), Run(events).At(r);
      assert events[..n + 1] == events && ev in events;
      assert forall k | 0 <= k <= n :: events[..n][..k] == events[..k];
      NothingIsLostWhileItGoesOn(events[..n], r);
      assert GoesOn(Run(events[..n + 1]).At(r));
      StepFacts(w, ev, r);
      if e'.page.None? {
        NothingWaits(e');
      } else if e.page.Some? && ev.role == r {
        KeepsAll(SealedItems(events[..n], r), e, ev.action, Act(r, e, ev.action, w.log, w.nextPair));
      } else if e.page.Some? {
        assert SealedItems(events[..n], r) + [] == SealedItems(events[..n], r);
      }
    }
  }

  lemma KeepsAll(sealed: seq<Item>, e: Endpoint, action: Action, x: Effect)
    requires e.page.Some? && x.e.page.Some? && Moved(e, action, x) && !x.e.page.value.terminated
    requires action.RunTask? ==> action.connected
    ensures sealed + ItemOf(x.sealed) + Waiting(OutboxOf(x.e))
            == sealed + Waiting(OutboxOf(e)) + (if Hands(e, action) then [Item(action.kind, App(action.data))] else [])
  {
    hide Waiting, OutboxOf, Lost;
    var w, w' := Waiting(OutboxOf(e)), Waiting(OutboxOf(x.e));
    if Hands(e, action) {
      assert sealed + ItemOf(x.sealed) + w' == sealed + w + [Item(action.kind, App(action.data))];
    } else if x.sealed.Some? {
      assert sealed + ItemOf(x.sealed) + w' == sealed + (ItemOf(x.sealed) + w');
    }
  }
}
