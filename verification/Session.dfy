/**
 Both ends of a session as one state machine.  An event is one uninterrupted stretch of JavaScript
 between two awaits (or a crash, a reload, a relay delivery); a run is any finite list of events.
 Events that are not enabled change nothing, so every list of events is a run.

 The relay is hostile: it may deliver any wire frame at any time, any number of times.  Storage writes
 may fail, connections may be down, pages may crash between any two events.
 */
module Session {
  import opened Bytes
  import opened Nonce
  import opened Wire
  import opened Channel

  /** What runs when a queued send has finished. */
  datatype After = Done | MaybeRekey | Commit(key: Key)

  /** An entry of the send serializer: its counter and key are taken only when it runs. */
  datatype Task = Task(kind: RelayKind, payload: Payload, after: After)

  /** Where the handler of the current inbound frame is waiting; the inbound chain runs one handler at a time. */
  datatype Inbound =
    | Ready
    | JoinerDerive(peerPub: nat)
    | AwaitAckSent
    | InitiatorDerive(peerPub: nat)
    | CommitNext(key: Key)
    | CommitPersist(key: Key)

  datatype Page = Page(
    own: nat,
    active: Option<Active>,
    localPrf: bool,
    peerPrf: bool,
    terminated: bool,
    upgrading: Option<Key>,
    rekeyInFlight: bool,
    keygen: bool,
    pendingPair: Option<nat>,
    inbound: Inbound,
    outbox: seq<Task>,
    accepted: seq<Frame>,
    gapSeen: bool)

  datatype Endpoint = Endpoint(store: Option<StoredSession>, page: Option<Page>)

  datatype World = World(initiator: Endpoint, joiner: Endpoint, log: seq<Frame>, nextPair: nat) {
    function At(r: Role): Endpoint {
      if r == Initiator then initiator else joiner
    }

    function Put(r: Role, e: Endpoint): World {
      if r == Initiator then this.(initiator := e) else this.(joiner := e)
    }
  }

  /** The result of an event at one end: its new state, the frame it sealed, the pairs it generated. */
  datatype Effect = Effect(e: Endpoint, sealed: Option<Frame>, pairs: nat)

  datatype Action =
    | Boot(unlocked: bool)
    | Crash
    | Terminate
    | FinalizeTermination
    | Handshake(peerPub: nat)
    | AllowGap
    | Enqueue(kind: RelayKind, data: nat)
    | RunTask(connected: bool, writable: bool, markerWritable: bool)
    | UpgradeStart
    | UpgradePersist(wrapOk: bool, writable: bool)
    | Keygen(ok: bool)
    | Deliver(kind: RelayKind, nonce: NonceBytes, box: Box, wellFormed: bool, writable: bool)
    | Derive(ok: bool)
    | CommitSwitch(haveWrapKey: bool)
    | CommitWrite(wrapOk: bool, writable: bool)

  datatype Event = Event(role: Role, action: Action)

  // ---- pieces of the handlers ---------------------------------------------------------------

  function FreshPage(own: nat): Page {
    Page(own, None, false, false, false, None, false, false, None, Ready, [], [], false)
  }

  function ResumedPage(own: nat, record: StoredSession): Page {
    FreshPage(own).(active := Some(Restore(record)), localPrf := true, peerPrf := record.hardened, gapSeen := true)
  }

  predicate Live(e: Endpoint) {
    e.page.Some? && e.page.value.active.Some?
  }

  function Ended(e: Endpoint): Endpoint
    requires e.page.Some?
  {
    e.(page := Some(e.page.value.(terminated := true)))
  }

  function WithActive(e: Endpoint, o: Outcome): Endpoint
    requires e.page.Some?
  {
    Endpoint(o.store, Some(e.page.value.(active := Some(o.active))))
  }

  /** Put the rekey marker in the stored record; a failing write ends the session. */
  function Mark(e: Endpoint, writable: bool): Endpoint
    requires Live(e)
  {
    var o := MarkRekeying(e.page.value.active.value, e.store, writable);
    if o.ok then WithActive(e, o) else Ended(WithActive(e, o))
  }

  function StartRekeyIfInitiator(r: Role, e: Endpoint, writable: bool): Endpoint
    requires Live(e)
  {
    var p := e.page.value;
    if p.terminated || p.rekeyInFlight then e
    else
      var e' := Mark(e.(page := Some(p.(rekeyInFlight := true))), writable);
      if r == Initiator && !e'.page.value.terminated
      then e'.(page := Some(e'.page.value.(keygen := true)))
      else e'
  }

  function FinishCommit(e: Endpoint): Endpoint
    requires Live(e)
  {
    var p := e.page.value;
    e.(page := Some(p.(rekeyInFlight := false, inbound := Ready,
                       outbox := p.outbox + [Task(RekeyDone, Nothing, Done)])))
  }

  function RunAfter(r: Role, e: Endpoint, after: After, sent: bool, markerWritable: bool): Endpoint
    requires Live(e)
  {
    var p := e.page.value;
    match after
    case Done => e
    case MaybeRekey => if p.peerPrf then StartRekeyIfInitiator(r, e, markerWritable) else e
    case Commit(key) => e.(page := Some(p.(inbound := if sent then CommitNext(key) else Ready)))
  }

  /** The head of the send queue runs: preflight, counter, seal, continuation. */
  function RunHead(r: Role, e: Endpoint, connected: bool, writable: bool, markerWritable: bool): Effect
    requires Live(e) && e.page.value.outbox != []
  {
    var p := e.page.value;
    var task := p.outbox[0];
    var popped := e.(page := Some(p.(outbox := p.outbox[1..])));
    if p.terminated || !connected then
      Effect(RunAfter(r, popped, task.after, false, markerWritable), None, 0)
    else
      var o := Allocate(p.active.value, e.store, task.kind, writable);
      var e' := WithActive(popped, o);
      if !o.ok || o.active.committed > MAX_COUNTER then
        Effect(RunAfter(r, Ended(e'), task.after, false, markerWritable), None, 0)
      else
        Effect(RunAfter(r, e', task.after, true, markerWritable),
               Some(Frame(o.active.key, r, o.active.committed, task.kind, task.payload)), 0)
  }

  /** A frame has been opened: the receive counter moves, then the frame's own handler runs. */
  function Handle(r: Role, e: Endpoint, f: Frame, wellFormed: bool, writable: bool): Endpoint
    requires Live(e)
  {
    var p := e.page.value;
    var a := p.active.value;
    if f.kind == Msg then
      if wellFormed then HandleText(e, f, writable) else Ended(e)
    else
      HandleOther(r, e.(page := Some(p.(active := Some(a.(recv := f.counter)), accepted := p.accepted + [f]))),
                  f, writable)
  }

  /** A failing write of the receive counter is reported as a malformed envelope and ends the session. */
  function HandleText(e: Endpoint, f: Frame, writable: bool): Endpoint
    requires Live(e)
  {
    var p := e.page.value;
    var o := NoteText(p.active.value, e.store, f.counter, writable);
    if o.ok then WithActive(e.(page := Some(p.(accepted := p.accepted + [f]))), o)
    else Ended(WithActive(e, o))
  }

  /** The handlers of the frames that are not text, once the receive counter has moved. */
  function HandleOther(r: Role, e: Endpoint, f: Frame, writable: bool): Endpoint
    requires Live(e)
  {
    var p := e.page.value;
    match f.kind
    case Msg => e
    case Chunk => e
    case RekeyDone => e
    case ModeUpgraded =>
      var e' := e.(page := Some(p.(peerPrf := true)));
      if p.localPrf then StartRekeyIfInitiator(r, e', writable) else e'
    case RekeyInit =>
      if !f.payload.PublicKey? || r != Joiner then Ended(e)
      else
        var e' := Mark(e.(page := Some(p.(rekeyInFlight := true))), writable);
        if e'.page.value.terminated then e'
        else e'.(page := Some(e'.page.value.(inbound := JoinerDerive(f.payload.pair))))
    case RekeyAck =>
      if !f.payload.PublicKey? || r != Initiator || p.pendingPair.None? then Ended(e)
      else e.(page := Some(p.(inbound := InitiatorDerive(f.payload.pair))))
  }

  function DeliverTo(r: Role, e: Endpoint, log: seq<Frame>, action: Action): Endpoint
    requires Live(e) && action.Deliver?
  {
    var p := e.page.value;
    var a := p.active.value;
    var taken := e.(page := Some(p.(active := Some(a.(mode := Strict)))));
    match Validate(log, r, a, action.kind, action.nonce, action.box)
    case Opened(f) => Handle(r, taken, f, action.wellFormed, action.writable)
    case _ => Ended(taken)
  }

  // ---- one event ----------------------------------------------------------------------------

  function Still(e: Endpoint): Effect {
    Effect(e, None, 0)
  }

  /** Starting a page: a record carrying the rekey marker is dropped, any other is resumed. */
  function BootAt(e: Endpoint, unlocked: bool, nextPair: nat): Effect {
    if e.store.Some? && !e.store.value.rekeying then
      if unlocked then Effect(e.(page := Some(ResumedPage(nextPair, e.store.value))), None, 1) else Still(e)
    else
      Effect(Endpoint(None, Some(FreshPage(nextPair))), None, 1)
  }

  function ActOffline(e: Endpoint, action: Action, nextPair: nat): Effect
    requires e.page.None?
  {
    match action
    case Boot(unlocked) => BootAt(e, unlocked, nextPair)
    case _ => Still(e)
  }

  function ActBeforeActive(e: Endpoint, action: Action, nextPair: nat): Effect
    requires e.page.Some? && e.page.value.active.None?
  {
    var p := e.page.value;
    match action
    case Crash => Still(e.(page := None))
    case Terminate => Still(Ended(e))
    case FinalizeTermination => Still(if p.terminated then e.(store := None) else e)
    case Handshake(peerPub) =>
      if p.terminated || peerPub == p.own || peerPub >= nextPair then Still(e)
      else
        var key := Agree(p.own, peerPub, false);
        Still(e.(page := Some(p.(active := Some(Active(key, 0, 0, 0, Strict, None))))))
    case _ => Still(e)
  }

  function OpenGap(e: Endpoint): Endpoint
    requires Live(e)
  {
    var p := e.page.value;
    e.(page := Some(p.(active := Some(p.active.value.(mode := FirstGapAllowed)), gapSeen := true)))
  }

  function EnqueueApp(e: Endpoint, kind: RelayKind, data: nat): Endpoint
    requires Live(e)
  {
    var p := e.page.value;
    if p.terminated || !(kind == Msg || kind == Chunk) then e
    else e.(page := Some(p.(outbox := p.outbox + [Task(kind, App(data), Done)])))
  }

  /** The passkey is registered and the key in use is handed to the key wrap. */
  function BeginUpgrade(e: Endpoint): Endpoint
    requires Live(e)
  {
    var p := e.page.value;
    if p.terminated || p.localPrf || p.upgrading.Some? then e
    else e.(page := Some(p.(upgrading := Some(p.active.value.key))))
  }

  function FinishUpgrade(e: Endpoint, wrapOk: bool, writable: bool): Endpoint
    requires Live(e)
  {
    var p := e.page.value;
    if p.upgrading.None? then e
    else
      var e' := e.(page := Some(p.(upgrading := None)));
      var o := InstallRecord(p.active.value, e.store, p.upgrading.value, false, writable && !p.terminated);
      if !wrapOk || !o.ok then Ended(e')
      else
        var e'' := WithActive(e', o);
        var q := e''.page.value;
        e''.(page := Some(q.(localPrf := true,
                             outbox := q.outbox + [Task(ModeUpgraded, Nothing, MaybeRekey)])))
  }

  function FinishKeygen(e: Endpoint, ok: bool, nextPair: nat): Effect
    requires Live(e)
  {
    var p := e.page.value;
    if !p.keygen then Still(e)
    else if !ok then Still(Ended(e.(page := Some(p.(keygen := false)))))
    else Effect(e.(page := Some(p.(keygen := false, pendingPair := Some(nextPair),
                                   outbox := p.outbox + [Task(RekeyInit, PublicKey(nextPair), Done)]))),
                None, 1)
  }

  /** The joiner generates its pair and queues the ACK; the initiator uses up its pending pair. */
  function DeriveKey(e: Endpoint, ok: bool, nextPair: nat): Effect
    requires Live(e)
  {
    var p := e.page.value;
    match p.inbound
    case JoinerDerive(peerPub) =>
      if !ok || peerPub == nextPair then Effect(Ended(e.(page := Some(p.(inbound := Ready)))), None, 1)
      else
        var ack := Task(RekeyAck, PublicKey(nextPair), Commit(Agree(nextPair, peerPub, true)));
        Effect(e.(page := Some(p.(inbound := AwaitAckSent, outbox := p.outbox + [ack]))), None, 1)
    case InitiatorDerive(peerPub) =>
      if !ok || p.pendingPair.None? || p.pendingPair.value == peerPub
      then Still(Ended(e.(page := Some(p.(inbound := Ready)))))
      else Still(e.(page := Some(p.(pendingPair := None,
                                    inbound := CommitNext(Agree(p.pendingPair.value, peerPub, true))))))
    case _ => Still(e)
  }

  /** The synchronous part of `commitRekey`: new key, counters at zero, then the record is wrapped. */
  function SwitchToNewKey(e: Endpoint, haveWrapKey: bool): Endpoint
    requires Live(e)
  {
    var p := e.page.value;
    if !p.inbound.CommitNext? then e
    else if p.terminated then e.(page := Some(p.(inbound := Ready)))
    else
      var a := p.active.value;
      var key := p.inbound.key;
      var e' := e.(page := Some(p.(active := Some(SwitchKey(a, key)))));
      if a.mirror.Some? && haveWrapKey
      then e'.(page := Some(e'.page.value.(inbound := CommitPersist(key))))
      else FinishCommit(e')
  }

  function WriteNewRecord(e: Endpoint, wrapOk: bool, writable: bool): Endpoint
    requires Live(e)
  {
    var p := e.page.value;
    if !p.inbound.CommitPersist? then e
    else
      var o := InstallRecord(p.active.value, e.store, p.inbound.key, true, writable && !p.terminated);
      if !wrapOk || !o.ok then Ended(e.(page := Some(p.(inbound := Ready))))
      else FinishCommit(WithActive(e, o))
  }

  function ActLive(r: Role, e: Endpoint, action: Action, log: seq<Frame>, nextPair: nat): Effect
    requires Live(e)
  {
    var p := e.page.value;
    match action
    case Boot(_) => Still(e)
    case Handshake(_) => Still(e)
    case Crash => Still(e.(page := None))
    case Terminate => Still(Ended(e))
    case FinalizeTermination => Still(if p.terminated then e.(store := None) else e)
    case AllowGap => Still(OpenGap(e))
    case Enqueue(kind, data) => Still(EnqueueApp(e, kind, data))
    case RunTask(connected, writable, markerWritable) =>
      if p.outbox == [] then Still(e) else RunHead(r, e, connected, writable, markerWritable)
    case UpgradeStart => Still(BeginUpgrade(e))
    case UpgradePersist(wrapOk, writable) => Still(FinishUpgrade(e, wrapOk, writable))
    case Keygen(ok) => FinishKeygen(e, ok, nextPair)
    case Deliver(_, _, _, _, _) =>
      if p.terminated || p.inbound != Ready then Still(e) else Still(DeliverTo(r, e, log, action))
    case Derive(ok) => DeriveKey(e, ok, nextPair)
    case CommitSwitch(haveWrapKey) => Still(SwitchToNewKey(e, haveWrapKey))
    case CommitWrite(wrapOk, writable) => Still(WriteNewRecord(e, wrapOk, writable))
  }

  function Act(r: Role, e: Endpoint, action: Action, log: seq<Frame>, nextPair: nat): Effect {
    if e.page.None? then ActOffline(e, action, nextPair)
    else if e.page.value.active.None? then ActBeforeActive(e, action, nextPair)
    else ActLive(r, e, action, log, nextPair)
  }

  function Step(w: World, ev: Event): World {
    var x := Act(ev.role, w.At(ev.role), ev.action, w.log, w.nextPair);
    var w' := w.Put(ev.role, x.e);
    w'.(log := if x.sealed.Some? then w.log + [x.sealed.value] else w.log, nextPair := w.nextPair + x.pairs)
  }

  const Start := World(Endpoint(None, None), Endpoint(None, None), [], 0)

  function Run(events: seq<Event>): World {
    if events == [] then Start else Step(Run(events[..|events| - 1]), events[|events| - 1])
  }
}
