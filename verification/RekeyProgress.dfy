/**
 The rekey really happens: once both sides are in PRF mode and nothing is left to do, both have switched to one new
 key; and there is a ride that gets there.
 */
module RekeyProgress {
  import opened Bytes
  import opened Nonce
  import opened Wire
  import opened Channel
  import opened Session
  import opened RekeyFifo
  import opened RekeyRefinement

  // ---- what keeps a rekey going -------------------------------------------------------------------

  /** The joiner's announcement is on its way or still queued. */
  ghost predicate Announcing(q: seq<Frame>, outbox: seq<Task>) {
    exists a :: 0 <= a < |q| + |outbox| && KindAt(q, outbox, a) == ModeUpgraded
  }

  /** An upgraded joiner is heard of; then the initiator starts; then its REKEY_INIT comes; then it switches. */
  ghost predicate Cues(d: Duo) {
    && (d.j.localPrf && !d.i.peerPrf ==> Announcing(d.toI, d.j.outbox))
    && Looks(d.i)
    && Started(d.i)
  }

  /** What the initiator is about to commit, or has committed, is a rekeyed key. */
  predicate NewKeyNext(s: Side) {
    && (s.inbound.CommitNext? ==> s.inbound.key.rekeyed)
    && (s.inbound.CommitPersist? ==> s.key.rekeyed)
  }

  lemma CommitsNewKeys(d: Duo)
    requires InSomePhase(d)
    ensures NewKeyNext(d.i) && !d.i.ended && !d.j.ended
  {
  }

  lemma AnnouncingGrows(q: seq<Frame>, outbox: seq<Task>, outbox': seq<Task>)
    requires outbox <= outbox'
    requires Announcing(q, outbox) || (outbox' != [] && outbox'[|outbox'| - 1].kind == ModeUpgraded)
    ensures Announcing(q, outbox')
  {
    if Announcing(q, outbox) {
      var a :| 0 <= a < |q| + |outbox| && KindAt(q, outbox, a) == ModeUpgraded;
      assert KindAt(q, outbox', a) == ModeUpgraded;
    } else {
      assert KindAt(q, outbox', |q| + |outbox'| - 1) == ModeUpgraded;
    }
  }

  lemma AnnouncingSealed(q: seq<Frame>, outbox: seq<Task>, f: Frame)
    requires outbox != [] && f.kind == outbox[0].kind && Announcing(q, outbox)
    ensures Announcing(q + [f], outbox[1..])
  {
    var a :| 0 <= a < |q| + |outbox| && KindAt(q, outbox, a) == ModeUpgraded;
    assert KindAt(q + [f], outbox[1..], a) == ModeUpgraded;
  }

  lemma AnnouncingDelivered(q: seq<Frame>, outbox: seq<Task>)
    requires q != [] && q[0].kind != ModeUpgraded && Announcing(q, outbox)
    ensures Announcing(q[1..], outbox)
  {
    var a :| 0 <= a < |q| + |outbox| && KindAt(q, outbox, a) == ModeUpgraded;
    assert KindAt(q[1..], outbox, a - 1) == ModeUpgraded;
  }

  predicate Appends(s: Side, s': Side) {
    s.outbox <= s'.outbox && s'.peerPrf == s.peerPrf && s'.localPrf == s.localPrf
  }

  lemma DeriveAppends(s: Side, next: nat)
    ensures Appends(s, DeriveSide(s, next).side)
  {
    hide Agree;
    if s.inbound.JoinerDerive? {
    } else if s.inbound.InitiatorDerive? {
    }
  }

  lemma CommitAppends(s: Side, next: nat, wrap: bool)
    ensures Appends(s, KeygenSide(s, next).side) && Appends(s, SwitchSide(s, wrap)) && Appends(s, CommitDone(s))
  {
  }

  /** What a side does alone only adds to its queue; an upgrade adds the announcement. */
  lemma AloneAppends(r: Role, s: Side, m: Move, next: nat)
    ensures var s' := Alone(r, s, m, next).side;
      && s.outbox <= s'.outbox && s'.peerPrf == s.peerPrf && (s.localPrf ==> s'.localPrf)
      && (s'.localPrf && !s.localPrf ==>
            s'.outbox != [] && s'.outbox[|s'.outbox| - 1] == Task(ModeUpgraded, Nothing, MaybeRekey))
  {
    DeriveAppends(s, next);
    CommitAppends(s, next, m.CommitSwitch? && m.wrap);
    hide DeriveSide, KeygenSide, SwitchSide, CommitDone;
  }

  lemma StartKeeps(r: Role, s: Side)
    ensures Appends(s, StartRekey(r, s)) && StartRekey(r, s).outbox == s.outbox
  {
  }

  /** Only an announcement changes what a side knows of its peer, and nothing taken changes what it has queued. */
  predicate TakenFrom(s: Side, announced: bool, s': Side) {
    && s'.outbox == s.outbox && s'.localPrf == s.localPrf
    && s'.peerPrf == (s.peerPrf || announced)
  }

  lemma TakenAfterStart(s: Side, counter: nat, s': Side)
    requires var told := s.(recv := counter, peerPrf := true); s' == told || (Appends(told, s') && s'.outbox == told.outbox)
    ensures TakenFrom(s, true, s')
  {
  }

  lemma TellingKeeps(r: Role, s: Side, f: Frame)
    requires f.kind == ModeUpgraded
    ensures TakenFrom(s, true, Take(r, s, f))
  {
    hide StartRekey, Appends, TakenFrom;
    var told := s.(recv := f.counter, peerPrf := true);
    StartKeeps(r, told);
    TakenAfterStart(s, f.counter, StartRekey(r, told));
    TakenAfterStart(s, f.counter, told);
  }

  lemma TakeKeeps(r: Role, s: Side, f: Frame)
    ensures TakenFrom(s, f.kind == ModeUpgraded, Take(r, s, f))
  {
    if f.kind == ModeUpgraded {
      TellingKeeps(r, s, f);
      hide Take, TakenFrom;
    } else {
      hide StartRekey;
    }
  }

  lemma SentKeeps(r: Role, s: Side)
    requires s.outbox != []
    ensures var s' := Sent(r, s);
      s'.outbox == s.outbox[1..] && s'.localPrf == s.localPrf && s'.peerPrf == s.peerPrf
  {
  }

  lemma AnnouncingKept(d: Duo, m: Move)
    requires d.j.localPrf && !d.i.peerPrf ==> Announcing(d.toI, d.j.outbox)
    ensures var d' := Play(d, m); d'.j.localPrf && !d'.i.peerPrf ==> Announcing(d'.toI, d'.j.outbox)
  {
    hide Alone, Take, Sent, Announcing;
    if m.Deliver? {
      if m.role == Initiator && d.toI != [] {
        TakeKeeps(Initiator, d.i, d.toI[0]);
        if d.j.localPrf && !d.i.peerPrf && d.toI[0].kind != ModeUpgraded {
          AnnouncingDelivered(d.toI, d.j.outbox);
        }
      } else if m.role == Joiner && d.toJ != [] {
        TakeKeeps(Joiner, d.j, d.toJ[0]);
      }
    } else if m.Send? {
      if m.role == Initiator && d.i.outbox != [] {
        SentKeeps(Initiator, d.i);
      } else if m.role == Joiner && d.j.outbox != [] {
        SentKeeps(Joiner, d.j);
        if d.j.localPrf && !d.i.peerPrf {
          AnnouncingSealed(d.toI, d.j.outbox, SentFrame(Joiner, d.j));
        }
      }
    } else {
      AloneAppends(m.role, SideAt(d, m.role), m, d.next);
      if m.role == Joiner && !d.i.peerPrf && Play(d, m).j.localPrf {
        AnnouncingGrows(d.toI, d.j.outbox, Play(d, m).j.outbox);
      }
    }
  }

  /** An initiator in PRF mode that knows its peer is has started, or will look when its announcement is sent. */
  predicate Looks(s: Side) {
    s.localPrf && s.peerPrf ==>
      s.rekeyInFlight || s.key.rekeyed || (exists k :: 0 <= k < |s.outbox| && s.outbox[k].after == MaybeRekey)
  }

  lemma LookKept(d: Duo, m: Move)
    requires Looks(d.i) && NewKeyNext(d.i) && !d.i.ended
    ensures Looks(Play(d, m).i)
  {
    if m.role == Initiator {
      if m.Send? {
        if d.i.outbox != [] && d.i.committed < MAX_COUNTER {
          LookSent(d.i);
        }
      } else if m.Deliver? {
        if d.toI != [] && d.i.inbound == Ready {
          LookTaken(d.i, d.toI[0]);
        }
      } else {
        hide Alone;
        LookAlone(d.i, m, d.next);
      }
    }
  }

  lemma LookSent(s: Side)
    requires Looks(s) && !s.ended && s.outbox != []
    ensures Looks(Sent(Initiator, s))
  {
    var s' := Sent(Initiator, s);
    if exists k :: 0 <= k < |s.outbox| && s.outbox[k].after == MaybeRekey {
      var k :| 0 <= k < |s.outbox| && s.outbox[k].after == MaybeRekey;
      if k > 0 {
        assert s'.outbox[k - 1].after == MaybeRekey;
      }
    }
  }

  lemma LookTaken(s: Side, f: Frame)
    requires Looks(s) && !s.ended
    ensures Looks(Take(Initiator, s, f))
  {
    TakeKeeps(Initiator, s, f);
  }

  lemma LookAlone(s: Side, m: Move, next: nat)
    requires Looks(s) && NewKeyNext(s)
    ensures Looks(Alone(Initiator, s, m, next).side)
  {
    AloneAppends(Initiator, s, m, next);
    var s' := Alone(Initiator, s, m, next).side;
    if exists k :: 0 <= k < |s.outbox| && s.outbox[k].after == MaybeRekey {
      var k :| 0 <= k < |s.outbox| && s.outbox[k].after == MaybeRekey;
      assert s'.outbox[k].after == MaybeRekey;
    }
  }

  /** A started rekey is being prepared, under way or done. */
  predicate Started(s: Side) {
    s.rekeyInFlight ==> s.keygen || s.pendingPair.Some? || s.inbound.CommitNext? || s.key.rekeyed
  }

  lemma StartedAlone(s: Side, m: Move, next: nat)
    requires Started(s) && NewKeyNext(s)
    ensures var s' := Alone(Initiator, s, m, next).side; s'.ended || Started(s')
  {
  }

  lemma StartedTaken(s: Side, f: Frame)
    requires Started(s) && s.inbound == Ready
    ensures var s' := Take(Initiator, s, f); s'.ended || Started(s')
  {
    hide Agree;
  }

  lemma StartedSent(s: Side)
    requires Started(s) && s.outbox != []
    ensures Started(Sent(Initiator, s))
  {
  }

  lemma StartedKept(d: Duo, m: Move)
    requires Started(d.i) && NewKeyNext(d.i) && !Play(d, m).i.ended
    ensures Started(Play(d, m).i)
  {
    hide Alone, Take, Sent, Started, NewKeyNext;
    if m.role == Initiator {
      if m.Send? {
        if d.i.outbox != [] {
          StartedSent(d.i);
        }
      } else if m.Deliver? {
        if d.toI != [] && d.i.inbound == Ready {
          StartedTaken(d.i, d.toI[0]);
        }
      } else {
        StartedAlone(d.i, m, d.next);
      }
    }
  }

  lemma CuesKept(d: Duo, m: Move)
    requires InSomePhase(d) && Cues(d)
    ensures Cues(Play(d, m))
  {
    CommitsNewKeys(d);
    PlayKept(d, m);
    CommitsNewKeys(Play(d, m));
    hide InSomePhase;
    AnnouncingKept(d, m);
    LookKept(d, m);
    StartedKept(d, m);
  }

  // ---- at rest ------------------------------------------------------------------------------------

  /** No move changes anything any more, except that a page may queue something of its own. */
  ghost predicate AtRest(d: Duo) {
    forall m: Move | !m.Enqueue? :: Play(d, m) == d
  }

  lemma DeliverShortens(d: Duo)
    ensures d.i.inbound == Ready ==> |Play(d, Move.Deliver(Initiator)).toI| == if d.toI == [] then 0 else |d.toI| - 1
    ensures d.j.inbound == Ready ==> |Play(d, Move.Deliver(Joiner)).toJ| == if d.toJ == [] then 0 else |d.toJ| - 1
  {
    hide Take;
  }

  lemma NothingToSend(d: Duo)
    requires AtRest(d) && d.i.committed < MAX_COUNTER && d.j.committed < MAX_COUNTER
    ensures d.i.outbox == [] && d.j.outbox == []
    ensures d.toI == [] || d.i.inbound != Ready
    ensures d.toJ == [] || d.j.inbound != Ready
  {
    assert Play(d, Send(Initiator)) == d && Play(d, Send(Joiner)) == d;
    assert Play(d, Move.Deliver(Initiator)) == d && Play(d, Move.Deliver(Joiner)) == d;
    DeliverShortens(d);
  }

  lemma NothingToCommit(d: Duo)
    requires AtRest(d)
    ensures !d.i.keygen
    ensures !d.i.inbound.InitiatorDerive? || d.i.pendingPair.None?
    ensures !d.j.inbound.JoinerDerive?
    ensures !d.i.inbound.CommitNext? && !d.j.inbound.CommitNext?
    ensures !d.i.inbound.CommitPersist? && !d.j.inbound.CommitPersist?
  {
    assert Play(d, Move.Keygen(Initiator)) == d;
    assert Play(d, Move.Derive(Initiator)) == d && Play(d, Move.Derive(Joiner)) == d;
    assert Play(d, Move.CommitSwitch(Initiator, false)) == d && Play(d, Move.CommitSwitch(Joiner, false)) == d;
    assert Play(d, Move.CommitWrite(Initiator)) == d && Play(d, Move.CommitWrite(Joiner)) == d;
  }

  /** At rest in PRF mode the duo is past the rekey. */
  lemma RestIsRekeyed(d: Duo)
    requires InSomePhase(d) && Cues(d) && AtRest(d)
    requires d.i.localPrf && d.j.localPrf && d.i.committed < MAX_COUNTER && d.j.committed < MAX_COUNTER
    ensures d.i.key == d.j.key && d.i.key.rekeyed
  {
    NothingToSend(d);
    NothingToCommit(d);
    hide AtRest;
  }

  // ---- rides --------------------------------------------------------------------------------------

  /** A ride on the line is the same ride on the duo. */
  lemma {:induction false} RideKeepsCues(moves: seq<Move>)
    ensures Cues(DuoOf(Ride(moves)))
  {
    if moves == [] {
      FreshCues();
    } else {
      var n := |moves| - 1;
      RideKeepsCues(moves[..n]);
      hide Cues, Go, DuoOf, Play, LineOk;
      GoKept(Ride(moves[..n]), moves[n]);
      CuesKept(DuoOf(Ride(moves[..n])), moves[n]);
    }
  }

  lemma FreshCues()
    ensures LineOk(FreshLine()) && Cues(DuoOf(FreshLine()))
  {
    hide FreshLine, LineOk, DuoOf;
    FreshLineOk();
    FreshDuo();
  }

  /** No move changes the line any more, except that a page may queue something of its own. */
  ghost predicate Resting(l: Line)
    requires BothLive(l)
  {
    forall m: Move | !m.Enqueue? && !m.UpgradeStart? :: Go(l, m) == l
  }

  /** At rest, both sides in PRF mode and with counters left. */
  ghost predicate ComesToRest(l: Line) {
    && BothLive(l) && Resting(l)
    && forall r: Role :: SideOf(l.w.At(r)).localPrf && SideOf(l.w.At(r)).committed < MAX_COUNTER
  }

  /** Both sides hold one and the same rekeyed key. */
  ghost predicate OnOneNewKey(l: Line) {
    BothLive(l) && SideOf(l.w.initiator).key == SideOf(l.w.joiner).key && SideOf(l.w.initiator).key.rekeyed
  }

  /**
   The rekey happens: a ride in PRF mode on both sides that has come to rest, with counters left, has both sides on
   one and the same rekeyed key.
   */
  lemma RestingRideIsRekeyed(moves: seq<Move>)
    requires ComesToRest(Ride(moves))
    ensures OnOneNewKey(Ride(moves))
  {
    var l := Ride(moves);
    var d := DuoOf(l);
    RideKeepsCues(moves);
    assert SideOf(l.w.At(Initiator)) == d.i && SideOf(l.w.At(Joiner)) == d.j;
    hide Go, SideOf, Cues, InSomePhase, Alone, Take, Sent, SentFrame;
    forall m: Move | !m.Enqueue?
      ensures Play(d, m) == d
    {
      GoKept(l, m);
      if m.UpgradeStart? {
        UpgradeStartIdle(d, m);
      }
    }
    RestIsRekeyed(d);
  }

  lemma UpgradeStartIdle(d: Duo, m: Move)
    requires m.UpgradeStart? && d.i.localPrf && d.j.localPrf
    ensures Play(d, m) == d
  {
  }
}
