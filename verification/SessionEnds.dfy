/**
 The end of a session: a page whose session has ended seals nothing, accepts nothing and writes no record, whatever was
 queued or under way, and once it has cleaned up no later page takes the session up again.
 */
module SessionEnds {
  import opened Bytes
  import opened Nonce
  import opened Wire
  import opened Channel
  import opened Session

  predicate HasEnded(e: Endpoint) {
    e.page.Some? && e.page.value.terminated
  }

  /** Nothing comes of a step at an end whose session has ended, but that its record may go. */
  predicate StaysEnded(e: Endpoint, x: Effect) {
    && HasEnded(e) && HasEnded(x.e) && x.sealed.None?
    && x.e.page.value.accepted == e.page.value.accepted
    && (x.e.store == e.store || x.e.store == None)
  }

  lemma AfterEnded(r: Role, e: Endpoint, after: After, mw: bool)
    requires Live(e) && HasEnded(e)
    ensures var e' := RunAfter(r, e, after, false, mw);
      HasEnded(e') && e'.page.value.accepted == e.page.value.accepted && e'.store == e.store
  {
  }

  lemma SendEnded(r: Role, e: Endpoint, connected: bool, writable: bool, mw: bool)
    requires Live(e) && HasEnded(e) && e.page.value.outbox != []
    ensures StaysEnded(e, RunHead(r, e, connected, writable, mw))
  {
    hide RunAfter, Allocate;
    var p := e.page.value;
    AfterEnded(r, e.(page := Some(p.(outbox := p.outbox[1..]))), p.outbox[0].after, mw);
  }

  /** The handlers that come back from an await to a session that has ended. */
  lemma ReturnEnded(e: Endpoint, ok: bool, writable: bool)
    requires Live(e) && HasEnded(e)
    ensures StaysEnded(e, Still(FinishUpgrade(e, ok, writable))) && StaysEnded(e, Still(WriteNewRecord(e, ok, writable)))
  {
    hide Agree;
  }

  lemma DeriveEnded(e: Endpoint, ok: bool, n: nat)
    requires Live(e) && HasEnded(e)
    ensures StaysEnded(e, DeriveKey(e, ok, n))
  {
    hide Agree;
  }

  lemma KeyEnded(e: Endpoint, ok: bool, n: nat)
    requires Live(e) && HasEnded(e)
    ensures StaysEnded(e, FinishKeygen(e, ok, n)) && StaysEnded(e, Still(SwitchToNewKey(e, ok)))
  {
  }

  lemma StepEnded(r: Role, e: Endpoint, action: Action, log: seq<Frame>, n: nat)
    requires HasEnded(e) && !action.Crash?
    ensures StaysEnded(e, Act(r, e, action, log, n))
    ensures action.FinalizeTermination? ==> Act(r, e, action, log, n).e.store == None
  {
    hide RunHead, DeliverTo, FinishUpgrade, WriteNewRecord, FinishKeygen, DeriveKey, SwitchToNewKey, Agree;
    if Live(e) {
      match action
      case RunTask(connected, writable, mw) =>
        if e.page.value.outbox != [] {
          SendEnded(r, e, connected, writable, mw);
        }
      case UpgradePersist(ok, writable) => ReturnEnded(e, ok, writable);
      case CommitWrite(ok, writable) => ReturnEnded(e, ok, writable);
      case Keygen(ok) => KeyEnded(e, ok, n);
      case Derive(ok) => DeriveEnded(e, ok, n);
      case CommitSwitch(ok) => KeyEnded(e, ok, n);
      case _ =>
    }
  }

  /** A frame is sealed under the role of the end that seals it. */
  lemma SealsOwn(r: Role, e: Endpoint, action: Action, log: seq<Frame>, n: nat)
    ensures var f := Act(r, e, action, log, n).sealed; f.Some? ==> f.value.sender == r
  {
    hide RunAfter, DeliverTo, Agree, Allocate, Mark;
  }

  lemma StepAt(w: World, ev: Event, r: Role)
    ensures var x := Act(ev.role, w.At(ev.role), ev.action, w.log, w.nextPair);
      && Step(w, ev).log == (if x.sealed.Some? then w.log + [x.sealed.value] else w.log)
      && Step(w, ev).At(r) == if r == ev.role then x.e else w.At(r)
  {
    hide Act;
  }

  ghost predicate NoCrash(events: seq<Event>, r: Role) {
    forall ev | ev in events :: !(ev.role == r && ev.action.Crash?)
  }

  predicate Finalizes(ev: Event, r: Role) {
    ev.role == r && ev.action.FinalizeTermination?
  }

  /**
   Once its session has ended a page seals no frame and accepts none, and its record stays as it is or goes; after it has
   cleaned up the record is gone.
   */
  lemma {:induction false} AnEndedSessionIsSilent(before: seq<Event>, after: seq<Event>, r: Role)
    requires HasEnded(Run(before).At(r)) && NoCrash(after, r)
    ensures var w, w' := Run(before), Run(before + after);
      && HasEnded(w'.At(r)) && w'.At(r).page.value.accepted == w.At(r).page.value.accepted
      && (w'.At(r).store == w.At(r).store || w'.At(r).store == None)
      && ((exists ev :: ev in after && Finalizes(ev, r)) ==> w'.At(r).store == None)
      && w.log <= w'.log && forall i | |w.log| <= i < |w'.log| :: w'.log[i].sender != r
    decreases |after|
  {
    hide Act;
    if after == [] {
      assert before + after == before;
    } else {
      var n := |after| - 1;
      var ev := after[n];
      assert before + after == before + after[..n] + [ev];
      AnEndedSessionIsSilent(before, after[..n], r);
      var mid := Run(before + after[..n]);
      assert Run(before + after) == Step(mid, ev) by {
        assert (before + after)[..|before + after| - 1] == before + after[..n];
      }
      hide Run;
      StepAt(mid, ev, r);
      SealsOwn(ev.role, mid.At(ev.role), ev.action, mid.log, mid.nextPair);
      if ev.role == r {
        StepEnded(r, mid.At(r), ev.action, mid.log, mid.nextPair);
      }
      assert forall x | x in after :: x in after[..n] || x == ev;
    }
  }

  /** A session that has ended and been cleaned up is not resumed: the next page starts without key and record. */
  lemma AnEndedSessionIsNotResumed(before: seq<Event>, mid: seq<Event>, r: Role, unlocked: bool)
    requires HasEnded(Run(before).At(r)) && NoCrash(mid, r)
    requires exists ev :: ev in mid && Finalizes(ev, r)
    ensures var e := Run(before + mid + [Event(r, Crash)] + [Event(r, Boot(unlocked))]).At(r);
      e.store == None && e.page.Some? && e.page.value.active.None?
  {
    AnEndedSessionIsSilent(before, mid, r);
    var events := before + mid;
    RunPush(events, Event(r, Crash));
    RunPush(events + [Event(r, Crash)], Event(r, Boot(unlocked)));
  }

  lemma RunPush(events: seq<Event>, ev: Event)
    ensures Run(events + [ev]) == Step(Run(events), ev)
  {
    assert (events + [ev])[..|events|] == events;
  }
}
