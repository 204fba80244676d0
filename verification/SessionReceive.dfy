/**
 What every run of `Session` promises the receiver, against a relay that drops, duplicates, reorders,
 relabels or injects frames: per page lifetime, the accepted frames are frames the peer sealed, in the
 order it sealed them, each at most once; without a reconnect nothing in between is missing either.
 */
module SessionReceive {
  import opened Bytes
  import opened Nonce
  import opened Wire
  import opened Channel
  import opened Session
  import opened SessionSafety

  /** The frames `sender` sealed under `key`, in order. */
  function Under(frames: seq<Frame>, sender: Role, key: Key): seq<Frame> {
    if frames == [] then []
    else
      var f := frames[|frames| - 1];
      Under(frames[..|frames| - 1], sender, key) + (if f.sender == sender && f.key == key then [f] else [])
  }

  /** With no gap ever allowed, the receive counter is the number of frames accepted under the key in use. */
  predicate NoGapOk(r: Role, e: Endpoint) {
    Live(e) && !e.page.value.gapSeen ==>
      var p := e.page.value;
      var a := p.active.value;
      && a.mode == Strict
      && a.recv == |Under(p.accepted, r.Peer(), a.key)|
      && Consecutive(p.accepted, r.Peer())
  }

  /** Under each key the accepted counters are 1, 2, 3, ... */
  predicate Consecutive(accepted: seq<Frame>, sender: Role) {
    forall i :: 0 <= i < |accepted| ==>
      && accepted[i].sender == sender
      && accepted[i].counter == |Under(accepted[..i], sender, accepted[i].key)| + 1
  }

  lemma {:induction false} UnderMembers(frames: seq<Frame>, sender: Role, key: Key)
    ensures forall f :: f in Under(frames, sender, key) <==> f in frames && f.sender == sender && f.key == key
  {
    if frames != [] {
      var n := |frames| - 1;
      UnderMembers(frames[..n], sender, key);
      assert frames == frames[..n] + [frames[n]];
    }
  }

  lemma {:induction false} UnderGrows(frames: seq<Frame>, sender: Role, key: Key)
    requires CountersGrow(frames)
    ensures Growing(Under(frames, sender, key))
  {
    if frames != [] {
      var n := |frames| - 1;
      var under := Under(frames[..n], sender, key);
      UnderGrows(frames[..n], sender, key);
      UnderMembers(frames[..n], sender, key);
      if frames[n].sender == sender && frames[n].key == key {
        forall i | 0 <= i < |under| ensures under[i].counter < frames[n].counter {
          assert under[i] in frames[..n];
        }
      }
    }
  }

  lemma {:induction false} UnderCounts(frames: seq<Frame>, sender: Role, key: Key)
    requires Consecutive(frames, sender)
    ensures forall i :: 0 <= i < |Under(frames, sender, key)| ==> Under(frames, sender, key)[i].counter == i + 1
  {
    if frames != [] {
      var n := |frames| - 1;
      assert forall i :: 0 <= i <= n ==> frames[..n][..i] == frames[..i];
      UnderCounts(frames[..n], sender, key);
    }
  }

  lemma {:induction false} UnderNone(frames: seq<Frame>, sender: Role, key: Key)
    requires forall i :: 0 <= i < |frames| ==> frames[i].key != key
    ensures Under(frames, sender, key) == []
  {
    if frames != [] {
      UnderNone(frames[..|frames| - 1], sender, key);
    }
  }

  lemma ConsecutiveTaken(accepted: seq<Frame>, f: Frame)
    requires Consecutive(accepted, f.sender) && f.counter == |Under(accepted, f.sender, f.key)| + 1
    ensures Consecutive(accepted + [f], f.sender)
    ensures |Under(accepted + [f], f.sender, f.key)| == f.counter
  {
    var more := accepted + [f];
    assert more[..|accepted|] == accepted;
    assert forall i :: 0 <= i < |accepted| ==> more[..i] == accepted[..i];
  }

  predicate Growing(frames: seq<Frame>) {
    forall i, j :: 0 <= i < j < |frames| ==> frames[i].counter < frames[j].counter
  }

  // ---- accepting keeps the count --------------------------------------------------------------

  /** The part of a page the count depends on. */
  datatype Tally = Tally(key: Key, recv: nat, mode: CounterMode, accepted: seq<Frame>, gapSeen: bool)

  function TallyOf(e: Endpoint): Option<Tally> {
    if Live(e) then
      var p := e.page.value;
      Some(Tally(p.active.value.key, p.active.value.recv, p.active.value.mode, p.accepted, p.gapSeen))
    else None
  }

  lemma StartRekeyKeepsTally(r: Role, e: Endpoint, writable: bool)
    requires Live(e)
    ensures TallyOf(Mark(e, writable)) == TallyOf(e)
    ensures TallyOf(StartRekeyIfInitiator(r, e, writable)) == TallyOf(e)
  {
  }

  lemma AfterKeepsTally(r: Role, e: Endpoint, after: After, sent: bool, mw: bool)
    requires Live(e)
    ensures TallyOf(RunAfter(r, e, after, sent, mw)) == TallyOf(e)
  {
    hide StartRekeyIfInitiator;
    StartRekeyKeepsTally(r, e, mw);
  }

  lemma SendKeepsTally(r: Role, e: Endpoint, connected: bool, writable: bool, mw: bool)
    requires Live(e) && e.page.value.outbox != []
    ensures TallyOf(RunHead(r, e, connected, writable, mw).e) == TallyOf(e)
  {
    hide RunAfter;
    var p := e.page.value;
    var t := p.outbox[0];
    var popped := e.(page := Some(p.(outbox := p.outbox[1..])));
    if p.terminated || !connected {
      AfterKeepsTally(r, popped, t.after, false, mw);
    } else {
      var o := Allocate(p.active.value, e.store, t.kind, writable);
      var e' := WithActive(popped, o);
      AfterKeepsTally(r, Ended(e'), t.after, false, mw);
      AfterKeepsTally(r, e', t.after, true, mw);
    }
  }

  function Taken(t: Tally, f: Frame): Tally {
    t.(recv := f.counter, accepted := t.accepted + [f])
  }

  lemma OtherKeepsTally(r: Role, e: Endpoint, f: Frame, writable: bool)
    requires Live(e)
    ensures TallyOf(HandleOther(r, e, f, writable)) == TallyOf(e)
  {
    hide StartRekeyIfInitiator, Mark;
    match f.kind
    case ModeUpgraded => StartRekeyKeepsTally(r, Learned(e, ModeUpgraded), writable);
    case RekeyInit => StartRekeyKeepsTally(r, e.(page := Some(e.page.value.(rekeyInFlight := true))), writable);
    case _ =>
  }

  lemma TextTally(e: Endpoint, f: Frame, writable: bool)
    requires Live(e)
    ensures TallyOf(HandleText(e, f, writable)) in {TallyOf(e), Some(Taken(TallyOf(e).value, f))}
  {
  }

  lemma HandleTally(r: Role, e: Endpoint, f: Frame, wellFormed: bool, writable: bool)
    requires Live(e)
    ensures TallyOf(Handle(r, e, f, wellFormed, writable)) in {TallyOf(e), Some(Taken(TallyOf(e).value, f))}
  {
    hide HandleOther, HandleText;
    if f.kind == Msg {
      TextTally(e, f, writable);
    } else {
      var p := e.page.value;
      var e' := e.(page := Some(p.(active := Some(p.active.value.(recv := f.counter)),
                                   accepted := p.accepted + [f])));
      OtherKeepsTally(r, e', f, writable);
      assert TallyOf(e') == Some(Taken(TallyOf(e).value, f));
    }
  }

  lemma DeliverTally(r: Role, e: Endpoint, log: seq<Frame>, action: Action)
    requires Live(e) && action.Deliver? && NoGapOk(r, e)
    ensures NoGapOk(r, DeliverTo(r, e, log, action))
  {
    hide Handle, Validate;
    var p := e.page.value;
    var a := p.active.value;
    ValidateMeaning(log, r, a, action.kind, action.nonce, action.box);
    var taken := e.(page := Some(p.(active := Some(a.(mode := Strict)))));
    match Validate(log, r, a, action.kind, action.nonce, action.box)
    case Opened(f) =>
      HandleTally(r, taken, f, action.wellFormed, action.writable);
      if !p.gapSeen {
        ConsecutiveTaken(p.accepted, f);
      }
    case _ =>
  }

  lemma SwitchTally(log: seq<Frame>, r: Role, e: Endpoint, haveWrapKey: bool, n: nat)
    requires Live(e) && EndOk(log, r, e, n) && NoGapOk(r, e)
    ensures NoGapOk(r, SwitchToNewKey(e, haveWrapKey))
  {
    if e.page.value.inbound.CommitNext? {
      var p := e.page.value;
      UnderNone(p.accepted, r.Peer(), p.inbound.key);
    }
  }

  lemma LocalKeepsTally(e: Endpoint, action: Action, n: nat)
    requires Live(e)
    ensures action.Enqueue? ==> TallyOf(EnqueueApp(e, action.kind, action.data)) == TallyOf(e)
    ensures TallyOf(BeginUpgrade(e)) == TallyOf(e)
    ensures action.UpgradePersist? ==> TallyOf(FinishUpgrade(e, action.wrapOk, action.writable)) == TallyOf(e)
  {
  }

  lemma RekeyKeepsTally(e: Endpoint, ok: bool, writable: bool, n: nat)
    requires Live(e)
    ensures TallyOf(FinishKeygen(e, ok, n).e) == TallyOf(e)
    ensures TallyOf(WriteNewRecord(e, ok, writable)) == TallyOf(e)
  {
  }

  lemma DeriveKeepsTally(e: Endpoint, ok: bool, n: nat)
    requires Live(e)
    ensures TallyOf(DeriveKey(e, ok, n).e) == TallyOf(e)
  {
    hide Agree;
    if e.page.value.inbound.JoinerDerive? {
      if !ok || e.page.value.inbound.peerPub == n {
      }
    } else if e.page.value.inbound.InitiatorDerive? {
    }
  }

  lemma LiveTally(log: seq<Frame>, r: Role, e: Endpoint, action: Action, n: nat)
    requires Live(e) && EndOk(log, r, e, n) && NoGapOk(r, e)
    ensures NoGapOk(r, ActLive(r, e, action, log, n).e)
  {
    hide EndOk, RunHead, DeliverTo, EnqueueApp, BeginUpgrade, FinishUpgrade, FinishKeygen, DeriveKey;
    hide SwitchToNewKey, WriteNewRecord;
    match action
    case RunTask(connected, writable, mw) =>
      if e.page.value.outbox != [] {
        SendKeepsTally(r, e, connected, writable, mw);
      }
    case Deliver(_, _, _, _, _) => DeliverTally(r, e, log, action);
    case CommitSwitch(haveWrapKey) => SwitchTally(log, r, e, haveWrapKey, n);
    case Derive(ok) => DeriveKeepsTally(e, ok, n);
    case Keygen(ok) => RekeyKeepsTally(e, ok, false, n);
    case CommitWrite(wrapOk, writable) => RekeyKeepsTally(e, wrapOk, writable, n);
    case Enqueue(_, _) => LocalKeepsTally(e, action, n);
    case UpgradeStart => LocalKeepsTally(e, action, n);
    case UpgradePersist(_, _) => LocalKeepsTally(e, action, n);
    case _ =>
  }

  /** A page that has just started has accepted nothing, or may have a gap. */
  predicate JustStarted(e: Endpoint) {
    Live(e) && !e.page.value.gapSeen ==>
      e.page.value.accepted == [] && e.page.value.active.value.mode == Strict && e.page.value.active.value.recv == 0
  }

  lemma JustStartedTally(r: Role, e: Endpoint)
    requires JustStarted(e)
    ensures NoGapOk(r, e)
  {
  }

  lemma StartTally(r: Role, e: Endpoint, action: Action, log: seq<Frame>, n: nat)
    requires !Live(e) && (e.page.Some? ==> e.page.value.accepted == [])
    ensures JustStarted(Act(r, e, action, log, n).e)
  {
    hide ActLive;
  }

  lemma NothingAcceptedYet(log: seq<Frame>, r: Role, e: Endpoint, n: nat)
    requires EndOk(log, r, e, n) && e.page.Some? && !Live(e)
    ensures e.page.value.accepted == []
  {
  }

  lemma ActTally(w: World, ev: Event)
    requires Inv(w) && NoGapOk(ev.role, w.At(ev.role))
    ensures NoGapOk(ev.role, Act(ev.role, w.At(ev.role), ev.action, w.log, w.nextPair).e)
  {
    hide ActLive, ActOffline, ActBeforeActive, NoGapOk, EndOk, Inv, JustStarted;
    var e := w.At(ev.role);
    EndsOk(w, ev.role);
    if Live(e) {
      LiveTally(w.log, ev.role, e, ev.action, w.nextPair);
    } else {
      if e.page.Some? {
        NothingAcceptedYet(w.log, ev.role, e, w.nextPair);
      }
      StartTally(ev.role, e, ev.action, w.log, w.nextPair);
      JustStartedTally(ev.role, Act(ev.role, e, ev.action, w.log, w.nextPair).e);
    }
  }

  lemma EndsOk(w: World, r: Role)
    requires Inv(w)
    ensures EndOk(w.log, r, w.At(r), w.nextPair)
  {
    hide EndOk, FramesOk, CountersGrow, InitsAllowed;
  }

  lemma {:induction false} RunTally(events: seq<Event>)
    ensures forall r :: NoGapOk(r, Run(events).At(r))
  {
    hide Act, NoGapOk, Inv;
    if events == [] {
      forall r: Role ensures NoGapOk(r, Run(events).At(r)) {
        OfflineTally(r);
      }
    } else {
      var n := |events| - 1;
      RunTally(events[..n]);
      RunKept(events[..n]);
      ActTally(Run(events[..n]), events[n]);
      hide Run;
      StepAtEnd(Run(events[..n]), events[n]);
      forall r: Role ensures NoGapOk(r, Step(Run(events[..n]), events[n]).At(r)) {
      }
    }
  }

  lemma StepAtEnd(w: World, ev: Event)
    ensures Step(w, ev).At(ev.role) == Act(ev.role, w.At(ev.role), ev.action, w.log, w.nextPair).e
    ensures Step(w, ev).At(ev.role.Peer()) == w.At(ev.role.Peer())
  {
    hide Act;
  }

  lemma OfflineTally(r: Role)
    ensures NoGapOk(r, Start.At(r))
  {
  }

  // ---- the promises ---------------------------------------------------------------------------

  lemma AcceptedAreGenuine(log: seq<Frame>, r: Role, p: Page, i: nat, j: nat)
    requires p.active.Some? && AcceptedOk(log, r, p, p.active.value) && CountersGrow(log)
    requires i < j < |p.accepted|
    ensures var accepted := p.accepted;
            && accepted[i] in log && accepted[i].sender == r.Peer()
            && accepted[j] in log && accepted[j].sender == r.Peer()
            && accepted[i] != accepted[j]
            && (accepted[i].key == accepted[j].key ==>
                  && accepted[i].counter < accepted[j].counter
                  && forall s, t :: 0 <= s < |log| && 0 <= t < |log| && log[s] == accepted[i] && log[t] == accepted[j]
                                    ==> s < t)
  {
  }

  /**
   Whatever the relay does, every frame accepted during a page's life was sealed by the peer, no frame is
   accepted twice, and frames under one key are accepted in the order in which the peer sealed them.
   */
  lemma AcceptedFramesAreGenuine(events: seq<Event>, r: Role, i: nat, j: nat)
    requires Live(Run(events).At(r))
    requires i < j < |Run(events).At(r).page.value.accepted|
    ensures var log := Run(events).log;
            var accepted := Run(events).At(r).page.value.accepted;
            && accepted[i] in log && accepted[i].sender == r.Peer()
            && accepted[j] in log && accepted[j].sender == r.Peer()
            && accepted[i] != accepted[j]
            && (accepted[i].key == accepted[j].key ==>
                  && accepted[i].counter < accepted[j].counter
                  && forall s, t :: 0 <= s < |log| && 0 <= t < |log| && log[s] == accepted[i] && log[t] == accepted[j]
                                    ==> s < t)
  {
    RunKept(events);
    var w := Run(events);
    hide Run;
    assert EndOk(w.log, r, w.At(r), w.nextPair);
    var p := w.At(r).page.value;
    assert AcceptedOk(w.log, r, p, p.active.value);
    AcceptedAreGenuine(w.log, r, p, i, j);
  }

  /** Frames 1, 2, ..., n of a growing list are its first n. */
  lemma {:induction false} FirstCounters(all: seq<Frame>, some: seq<Frame>)
    requires Growing(all) && forall i :: 0 <= i < |all| ==> all[i].counter >= 1
    requires forall i :: 0 <= i < |some| ==> some[i].counter == i + 1 && some[i] in all
    ensures some <= all
  {
    if some != [] {
      var n := |some| - 1;
      FirstCounters(all, some[..n]);
      assert forall j :: 0 <= j < n ==> all[j] == some[..n][j];
      var q :| 0 <= q < |all| && all[q] == some[n];
      AtLeast(all, q);
      assert some == some[..n] + [some[n]];
    }
  }

  lemma {:induction false} AtLeast(all: seq<Frame>, q: nat)
    requires Growing(all) && q < |all| && forall i :: 0 <= i < |all| ==> all[i].counter >= 1
    ensures all[q].counter >= q + 1
  {
    if q > 0 {
      AtLeast(all, q - 1);
    }
  }

  /** A page on its first connection: neither resumed nor reconnected. */
  ghost predicate Uninterrupted(e: Endpoint) {
    Live(e) && !e.page.value.gapSeen
  }

  /** What the page accepted under `key` are the first frames its peer sealed under it. */
  ghost predicate AcceptedFirst(e: Endpoint, log: seq<Frame>, r: Role, key: Key) {
    Live(e) && Under(e.page.value.accepted, r.Peer(), key) <= Under(log, r.Peer(), key)
  }

  /**
   A page that has neither been resumed nor seen a reconnect has accepted, under every key it ever used, exactly
   the first frames its peer sealed under that key: nothing is lost, reordered or repeated in between.  This is per
   key: what a peer seals under the old key after its rekey frame is behind the receiver's switch, so a relay may drop
   it unnoticed, and if it arrives it ends the session (`RekeyWindow`).
   */
  lemma AcceptedIsPrefix(events: seq<Event>, r: Role, key: Key)
    requires Uninterrupted(Run(events).At(r))
    ensures AcceptedFirst(Run(events).At(r), Run(events).log, r, key)
  {
    RunKept(events);
    RunTally(events);
    var w := Run(events);
    var p := w.At(r).page.value;
    assert NoGapOk(r, w.At(r));
    assert EndOk(w.log, r, w.At(r), w.nextPair);
    assert AcceptedOk(w.log, r, p, p.active.value);
    UnderMembers(p.accepted, r.Peer(), key);
    UnderCounts(p.accepted, r.Peer(), key);
    UnderMembers(w.log, r.Peer(), key);
    UnderGrows(w.log, r.Peer(), key);
    var some := Under(p.accepted, r.Peer(), key);
    var all := Under(w.log, r.Peer(), key);
    forall i | 0 <= i < |some| ensures some[i] in all {
      assert some[i] in p.accepted;
    }
    forall i | 0 <= i < |all| ensures all[i].counter >= 1 {
      assert all[i] in w.log;
    }
    FirstCounters(all, some);
  }
}
