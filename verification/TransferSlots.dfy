/**
 The two transfer slots of a page and its count of received bytes: who may occupy them, over all offers,
 accepts, cancels, timeouts and completions.
 */
module TransferSlots {
  import opened Bytes
  import opened FileChunks

  const SESSION_RECEIVE_CAP_BYTES: nat := 524_288_000

  datatype OutPhase = Offered | Sending | Verifying

  datatype Outgoing = Outgoing(tid: string, size: nat, phase: OutPhase)

  /** `serial` is the identity of the state object an accept in progress compares against. */
  datatype Incoming =
    | OfferPending(tid: string, size: nat, serial: nat)
    | ReceivingFile(tid: string, size: nat)

  datatype Slots = Slots(
    transferActive: Option<Outgoing>,
    incomingActive: Option<Incoming>,
    sessionReceivedBytes: nat,
    attachments: set<string>,
    accepting: Option<nat>,
    nextSerial: nat)

  datatype Offer = Offer(tid: string, size: int, nameUsable: bool)

  datatype Verdict = Accept | DeclineTooLarge | DeclineUnsupported

  function EvaluatePreAccept(s: Slots, offer: Offer, supported: bool, ready: bool): Verdict {
    if offer.size > MAX_FILE_SIZE_BYTES then DeclineTooLarge
    else if offer.size <= 0 then DeclineUnsupported
    else if !offer.nameUsable then DeclineUnsupported
    else if s.transferActive.Some? || s.incomingActive.Some? then DeclineUnsupported
    else if offer.tid in s.attachments then DeclineUnsupported
    else if s.sessionReceivedBytes + offer.size > SESSION_RECEIVE_CAP_BYTES then DeclineUnsupported
    else if !supported || !ready then DeclineUnsupported
    else Accept
  }

  datatype Event =
    | StartTransfer(tid: string, size: int, nameUsable: bool)
    | OutgoingAdvances(phase: OutPhase)
    | OutgoingEnds(recorded: bool)
    | OfferArrives(offer: Offer, supported: bool, ready: bool)
    | AcceptStarts
    | AcceptFinishes(sent: bool)
    | FileDone(matches: bool)
    | IncomingEnds
    | SessionEnds

  function Started(s: Slots, tid: string, size: int, nameUsable: bool): Slots {
    if s.transferActive.Some? || s.incomingActive.Some? || size <= 0 || size > MAX_FILE_SIZE_BYTES || !nameUsable then s
    else s.(transferActive := Some(Outgoing(tid, size, Offered)))
  }

  function Admitted(s: Slots, offer: Offer, supported: bool, ready: bool): Slots {
    if EvaluatePreAccept(s, offer, supported, ready) != Accept then s
    else s.(incomingActive := Some(OfferPending(offer.tid, offer.size, s.nextSerial)), nextSerial := s.nextSerial + 1)
  }

  /** Worker ready and `file_accept` sent: only the very offer that was accepted starts receiving. */
  function Accepted(s: Slots, sent: bool): Slots {
    if s.accepting.None? then s
    else
      var s' := s.(accepting := None);
      match s.incomingActive
      case Some(OfferPending(tid, size, serial)) =>
        if serial == s.accepting.value && sent then s'.(incomingActive := Some(ReceivingFile(tid, size))) else s'
      case _ => s'
  }

  function Recorded(s: Slots, matches: bool): Slots {
    match s.incomingActive
    case Some(ReceivingFile(tid, size)) =>
      if matches
      then s.(incomingActive := None, sessionReceivedBytes := s.sessionReceivedBytes + size,
              attachments := s.attachments + {tid})
      else s.(incomingActive := None)
    case _ => s
  }

  function Step(s: Slots, ev: Event): Slots {
    match ev
    case StartTransfer(tid, size, nameUsable) => Started(s, tid, size, nameUsable)
    case OutgoingAdvances(phase) =>
      if s.transferActive.None? then s
      else s.(transferActive := Some(s.transferActive.value.(phase := phase)))
    case OutgoingEnds(recorded) =>
      if s.transferActive.None? then s
      else s.(transferActive := None,
              attachments := if recorded then s.attachments + {s.transferActive.value.tid} else s.attachments)
    case OfferArrives(offer, supported, ready) => Admitted(s, offer, supported, ready)
    case AcceptStarts =>
      (match s.incomingActive
       case Some(OfferPending(_, _, serial)) => if s.accepting.Some? then s else s.(accepting := Some(serial))
       case _ => s)
    case AcceptFinishes(sent) => Accepted(s, sent)
    case FileDone(matches) => Recorded(s, matches)
    case IncomingEnds => s.(incomingActive := None)
    case SessionEnds =>
      s.(transferActive := None, incomingActive := None, attachments := {}, sessionReceivedBytes := 0)
  }

  const Fresh := Slots(None, None, 0, {}, None, 0)

  function Run(events: seq<Event>): Slots {
    if events == [] then Fresh else Step(Run(events[..|events| - 1]), events[|events| - 1])
  }

  function PendingSize(s: Slots): nat {
    if s.incomingActive.Some? then s.incomingActive.value.size else 0
  }

  // ---- what a session has received ----------------------------------------------------------------------

  /** The sizes of the files received since the session began, added up. */
  function ReceivedBytes(events: seq<Event>): nat {
    if events == [] then 0
    else
      var n := |events| - 1;
      match (events[n], Run(events[..n]).incomingActive)
      case (SessionEnds, _) => 0
      case (FileDone(true), Some(ReceivingFile(_, size))) => ReceivedBytes(events[..n]) + size
      case _ => ReceivedBytes(events[..n])
  }

  /** The ids of the files received, or sent and acknowledged, since the session began. */
  function KnownIds(events: seq<Event>): set<string> {
    if events == [] then {}
    else
      var n := |events| - 1;
      var s := Run(events[..n]);
      match (events[n], s.incomingActive, s.transferActive)
      case (SessionEnds, _, _) => {}
      case (FileDone(true), Some(ReceivingFile(tid, _)), _) => KnownIds(events[..n]) + {tid}
      case (OutgoingEnds(true), _, Some(Outgoing(tid, _, _))) => KnownIds(events[..n]) + {tid}
      case _ => KnownIds(events[..n])
  }

  /** The counter is the sum, and the attachments are the files it adds up and those sent. */
  lemma {:induction false} CounterIsTheSum(events: seq<Event>)
    ensures Run(events).sessionReceivedBytes == ReceivedBytes(events)
    ensures Run(events).attachments == KnownIds(events)
  {
    if events != [] {
      CounterIsTheSum(events[..|events| - 1]);
    }
  }

  /**
   Over every sequence of offers, accepts, cancels, timeouts and completions at most one of the two slots is
   occupied, and the sizes of the files received in the session and of a pending one add up to 500 MiB at most.
   */
  lemma {:induction false} OneTransferWithinTheCap(events: seq<Event>)
    ensures !(Run(events).transferActive.Some? && Run(events).incomingActive.Some?)
    ensures ReceivedBytes(events) + PendingSize(Run(events)) <= SESSION_RECEIVE_CAP_BYTES
    ensures Run(events).incomingActive.Some? ==> 0 < PendingSize(Run(events)) <= MAX_FILE_SIZE_BYTES
  {
    CounterIsTheSum(events);
    if events != [] {
      OneTransferWithinTheCap(events[..|events| - 1]);
      CounterIsTheSum(events[..|events| - 1]);
      hide ReceivedBytes, KnownIds;
    }
  }

  // ---- who gets a slot ----------------------------------------------------------------------------------

  predicate BothFree(s: Slots) {
    s.transferActive.None? && s.incomingActive.None?
  }

  /**
   An offer is accepted, and takes the incoming slot, if and only if both slots are free, it is for 1 byte to 100 MiB
   under a usable name, files are supported and ready, its id is new, and the files received in the session and
   this one come to 500 MiB at most.  Any other changes nothing, and only one that is too large is told so.
   */
  lemma OfferTakesTheSlotExactly(events: seq<Event>, offer: Offer, supported: bool, ready: bool)
    ensures var s := Run(events);
      var s' := Step(s, OfferArrives(offer, supported, ready));
      var verdict := EvaluatePreAccept(s, offer, supported, ready);
      && (verdict == Accept <==>
            && BothFree(s)
            && 1 <= offer.size <= 104_857_600 && offer.nameUsable && supported && ready
            && offer.tid !in KnownIds(events)
            && ReceivedBytes(events) + offer.size <= 524_288_000)
      && (verdict == DeclineTooLarge <==> offer.size > 104_857_600)
      && (if verdict == Accept then s'.incomingActive == Some(OfferPending(offer.tid, offer.size, s.nextSerial))
          else s' == s)
      && s'.transferActive == s.transferActive
  {
    CounterIsTheSum(events);
    hide Run, ReceivedBytes, KnownIds;
  }

  /** A transfer of one's own starts if and only if both slots are free and the file is of 1 byte to 100 MiB with a usable name. */
  lemma StartTakesTheSlotExactly(events: seq<Event>, tid: string, size: int, nameUsable: bool)
    ensures var s := Run(events);
      var s' := Step(s, StartTransfer(tid, size, nameUsable));
      if BothFree(s) && 1 <= size <= 104_857_600 && nameUsable
      then s' == s.(transferActive := Some(Outgoing(tid, size, Offered)))
      else s' == s
  {
    hide Run;
  }

  // ---- accepting ----------------------------------------------------------------------------------------

  lemma {:induction false} SerialsAreFresh(events: seq<Event>)
    ensures var s := Run(events);
      match s.incomingActive case Some(OfferPending(_, _, serial)) => serial < s.nextSerial case _ => true
  {
    if events != [] {
      SerialsAreFresh(events[..|events| - 1]);
    }
  }

  lemma {:induction false} RunSplits(before: seq<Event>, after: seq<Event>, ev: Event)
    ensures Run(before + (after + [ev])) == Step(Run(before + after), ev)
  {
    var all := before + (after + [ev]);
    assert all[..|all| - 1] == before + after;
  }

  /** Once an offer has left the slot it does not come back: the serial tells it from a later one with the same id and size. */
  lemma {:induction false} AnOfferDoesNotReturn(before: seq<Event>, after: seq<Event>, offer: Incoming)
    requires offer.OfferPending? && offer.serial < Run(before).nextSerial
    requires Run(before).incomingActive != Some(offer)
    ensures Run(before + after).incomingActive != Some(offer) && offer.serial < Run(before + after).nextSerial
  {
    if after == [] {
      assert before + after == before;
    } else {
      var n := |after| - 1;
      AnOfferDoesNotReturn(before, after[..n], offer);
      RunSplits(before, after[..n], after[n]);
      assert after == after[..n] + [after[n]];
      hide Run;
    }
  }

  /** An offer that is in the slot at two moments has been there all the time between. */
  lemma OfferStaysBetween(before: seq<Event>, mid: seq<Event>, after: seq<Event>, offer: Incoming)
    requires offer.OfferPending?
    requires Run(before).incomingActive == Some(offer) && Run(before + mid + after).incomingActive == Some(offer)
    ensures Run(before + mid).incomingActive == Some(offer)
  {
    SerialsAreFresh(before);
    NextSerialGrows(before, mid);
    if Run(before + mid).incomingActive != Some(offer) {
      AnOfferDoesNotReturn(before + mid, after, offer);
    }
  }

  lemma {:induction false} NextSerialGrows(before: seq<Event>, after: seq<Event>)
    ensures Run(before).nextSerial <= Run(before + after).nextSerial
  {
    if after == [] {
      assert before + after == before;
    } else {
      var n := |after| - 1;
      NextSerialGrows(before, after[..n]);
      RunSplits(before, after[..n], after[n]);
      assert after == after[..n] + [after[n]];
      hide Run;
    }
  }

  lemma {:induction false} AcceptingStays(before: seq<Event>, after: seq<Event>)
    requires Run(before).accepting.Some? && forall ev | ev in after :: !ev.AcceptFinishes?
    ensures Run(before + after).accepting == Run(before).accepting
  {
    if after == [] {
      assert before + after == before;
    } else {
      var n := |after| - 1;
      assert after[n] in after;
      AcceptingStays(before, after[..n]);
      RunSplits(before, after[..n], after[n]);
      assert after == after[..n] + [after[n]];
      hide Run;
    }
  }

  /**
   An accept that began on `offer` and whose `file_accept` was sent starts the receiving of that file if and only if
   the very same offer is still in the slot; otherwise it changes neither slot.
   */
  lemma AcceptIsOfItsOffer(before: seq<Event>, between: seq<Event>, offer: Incoming, sent: bool)
    requires offer.OfferPending? && Run(before).incomingActive == Some(offer) && Run(before).accepting == None
    requires forall ev | ev in between :: !ev.AcceptFinishes?
    ensures var s := Run(before + [AcceptStarts] + between);
      var s' := Step(s, AcceptFinishes(sent));
      s' == s.(accepting := None,
               incomingActive := if sent && s.incomingActive == Some(offer)
                                 then Some(ReceivingFile(offer.tid, offer.size)) else s.incomingActive)
  {
    var started := before + [AcceptStarts];
    assert started[..|before|] == before;
    assert Run(started).accepting == Some(offer.serial) && Run(started).incomingActive == Some(offer);
    AcceptingStays(started, between);
    SerialsAreFresh(started);
    OnlyItsOffer(started, between, offer);
  }

  /** Whatever pending offer has its serial is that offer. */
  lemma {:induction false} OnlyItsOffer(before: seq<Event>, after: seq<Event>, offer: Incoming)
    requires offer.OfferPending? && Run(before).incomingActive == Some(offer)
    ensures var s := Run(before + after);
      && (match s.incomingActive
          case Some(OfferPending(tid, size, serial)) => serial == offer.serial ==> tid == offer.tid && size == offer.size
          case _ => true)
      && offer.serial < s.nextSerial
  {
    SerialsAreFresh(before);
    if after == [] {
      assert before + after == before;
    } else {
      var n := |after| - 1;
      OnlyItsOffer(before, after[..n], offer);
      RunSplits(before, after[..n], after[n]);
      assert after == after[..n] + [after[n]];
      hide Run;
    }
  }

  class FileState {
    var transferActive: Option<Outgoing>
    var incomingActive: Option<Incoming>
    var sessionReceivedBytes: nat
    var attachments: set<string>
    var accepting: Option<nat>
    var nextSerial: nat

    ghost function View(): Slots
      reads this
    {
      Slots(transferActive, incomingActive, sessionReceivedBytes, attachments, accepting, nextSerial)
    }

    constructor ()
      ensures View() == Fresh
    {
      transferActive, incomingActive, sessionReceivedBytes := None, None, 0;
      attachments, accepting, nextSerial := {}, None, 0;
    }

    method BeginTransfer(tid: string, size: int, nameUsable: bool)
      modifies this
      ensures View() == Started(old(View()), tid, size, nameUsable)
    {
      if transferActive.Some? || incomingActive.Some? {
        return;
      }
      if size <= 0 || size > MAX_FILE_SIZE_BYTES {
        return;
      }
      if !nameUsable {
        return;
      }
      transferActive := Some(Outgoing(tid, size, Offered));
    }

    method DispatchOffer(offer: Offer, supported: bool, ready: bool) returns (verdict: Verdict)
      modifies this
      ensures verdict == EvaluatePreAccept(old(View()), offer, supported, ready)
      ensures View() == Admitted(old(View()), offer, supported, ready)
    {
      if offer.size > MAX_FILE_SIZE_BYTES {
        return DeclineTooLarge;
      }
      if offer.size <= 0 || !offer.nameUsable {
        return DeclineUnsupported;
      }
      if transferActive.Some? || incomingActive.Some? || offer.tid in attachments {
        return DeclineUnsupported;
      }
      if sessionReceivedBytes + offer.size > SESSION_RECEIVE_CAP_BYTES || !supported || !ready {
        return DeclineUnsupported;
      }
      incomingActive := Some(OfferPending(offer.tid, offer.size, nextSerial));
      nextSerial := nextSerial + 1;
      verdict := Accept;
    }

    method FinishAccept(sent: bool)
      modifies this
      ensures View() == Accepted(old(View()), sent)
    {
      if accepting.None? {
        return;
      }
      var serial := accepting.value;
      accepting := None;
      if incomingActive.Some? && incomingActive.value.OfferPending? && incomingActive.value.serial == serial && sent {
        incomingActive := Some(ReceivingFile(incomingActive.value.tid, incomingActive.value.size));
      }
    }

    method RecordDone(matches: bool)
      modifies this
      ensures View() == Recorded(old(View()), matches)
    {
      if incomingActive.None? || !incomingActive.value.ReceivingFile? {
        return;
      }
      if matches {
        attachments := attachments + {incomingActive.value.tid};
        sessionReceivedBytes := sessionReceivedBytes + incomingActive.value.size;
      }
      incomingActive := None;
    }
  }
}
