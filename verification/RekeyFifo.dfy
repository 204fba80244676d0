/**
 The in-band rekey over a channel that delivers in order and never disconnects, with storage that accepts
 every write and key operations that succeed.  No application frame is queued inside a side's window; what happens
 otherwise is shown in `RekeyWindow`.  `Duo` keeps only what the rekey depends on of the two pages of `Session`, plus
 the frames on their way in each direction; the refinement to `Session.Step` is in `RekeyRefinement`.
 */
module RekeyFifo {
  import opened Bytes
  import opened Nonce
  import opened Wire
  import opened Channel
  import opened Session

  datatype Side = Side(
    key: Key,
    committed: nat,
    recv: nat,
    localPrf: bool,
    peerPrf: bool,
    ended: bool,
    upgrading: bool,
    rekeyInFlight: bool,
    keygen: bool,
    pendingPair: Option<nat>,
    inbound: Inbound,
    outbox: seq<Task>)

  datatype Duo = Duo(i: Side, j: Side, toJ: seq<Frame>, toI: seq<Frame>, next: nat)

  datatype Move =
    | Enqueue(role: Role, kind: RelayKind, data: nat)
    | Send(role: Role)
    | UpgradeStart(role: Role)
    | UpgradePersist(role: Role)
    | Keygen(role: Role)
    | Deliver(role: Role)
    | Derive(role: Role)
    | CommitSwitch(role: Role, wrap: bool)
    | CommitWrite(role: Role)

  // ---- one side -------------------------------------------------------------------------------

  function StartRekey(r: Role, s: Side): Side {
    if s.ended || s.rekeyInFlight then s
    else s.(rekeyInFlight := true, keygen := s.keygen || r == Initiator)
  }

  function Continue(r: Role, s: Side, after: After): Side {
    match after
    case Done => s
    case MaybeRekey => if s.peerPrf then StartRekey(r, s) else s
    case Commit(key) => s.(inbound := CommitNext(key))
  }

  function Sent(r: Role, s: Side): Side
    requires s.outbox != []
  {
    Continue(r, s.(outbox := s.outbox[1..], committed := s.committed + 1), s.outbox[0].after)
  }

  function SentFrame(r: Role, s: Side): Frame
    requires s.outbox != []
  {
    Frame(s.key, r, s.committed + 1, s.outbox[0].kind, s.outbox[0].payload)
  }

  function Take(r: Role, s: Side, f: Frame): Side {
    var s' := s.(recv := f.counter);
    match f.kind
    case Msg => s'
    case Chunk => s'
    case RekeyDone => s'
    case ModeUpgraded => if s.localPrf then StartRekey(r, s'.(peerPrf := true)) else s'.(peerPrf := true)
    case RekeyInit =>
      if !f.payload.PublicKey? || r != Joiner then s'.(ended := true)
      else s'.(rekeyInFlight := true, inbound := JoinerDerive(f.payload.pair))
    case RekeyAck =>
      if !f.payload.PublicKey? || r != Initiator || s.pendingPair.None? then s'.(ended := true)
      else s'.(inbound := InitiatorDerive(f.payload.pair))
  }

  function CommitDone(s: Side): Side {
    s.(rekeyInFlight := false, inbound := Ready, outbox := s.outbox + [Task(RekeyDone, Nothing, Done)])
  }

  /** A side after a move of its own, and the number of pairs it generated. */
  datatype Solo = Solo(side: Side, pairs: nat)

  function DeriveSide(s: Side, next: nat): Solo {
    match s.inbound
    case JoinerDerive(p) =>
      if p == next then Solo(s.(inbound := Ready, ended := true), 1)
      else Solo(s.(inbound := AwaitAckSent,
                   outbox := s.outbox + [Task(RekeyAck, PublicKey(next), Commit(Agree(next, p, true)))]), 1)
    case InitiatorDerive(q) =>
      if s.pendingPair.None? || s.pendingPair.value == q then Solo(s.(inbound := Ready, ended := true), 0)
      else Solo(s.(pendingPair := None, inbound := CommitNext(Agree(s.pendingPair.value, q, true))), 0)
    case _ => Solo(s, 0)
  }

  function SwitchSide(s: Side, wrap: bool): Side {
    if !s.inbound.CommitNext? then s
    else
      var s' := s.(key := s.inbound.key, committed := 0, recv := 0);
      if wrap && s.localPrf then s'.(inbound := CommitPersist(s.inbound.key)) else CommitDone(s')
  }

  function KeygenSide(s: Side, next: nat): Solo {
    if !s.keygen then Solo(s, 0)
    else Solo(s.(keygen := false, pendingPair := Some(next),
                 outbox := s.outbox + [Task(RekeyInit, PublicKey(next), Done)]), 1)
  }

  function Alone(r: Role, s: Side, m: Move, next: nat): Solo {
    match m
    case Enqueue(_, kind, data) =>
      Solo(if (kind == Msg || kind == Chunk) && !InWindow(s)
           then s.(outbox := s.outbox + [Task(kind, App(data), Done)]) else s, 0)
    case UpgradeStart(_) => Solo(if s.localPrf || s.upgrading then s else s.(upgrading := true), 0)
    case UpgradePersist(_) =>
      Solo(if !s.upgrading then s
           else s.(upgrading := false, localPrf := true,
                   outbox := s.outbox + [Task(ModeUpgraded, Nothing, MaybeRekey)]), 0)
    case Keygen(_) => KeygenSide(s, next)
    case Derive(_) => DeriveSide(s, next)
    case CommitSwitch(_, wrap) => Solo(SwitchSide(s, wrap), 0)
    case CommitWrite(_) => Solo(if s.inbound.CommitPersist? then CommitDone(s) else s, 0)
    case Send(_) => Solo(s, 0)
    case Deliver(_) => Solo(s, 0)
  }

  /** Between queueing its REKEY_INIT or REKEY_ACK and its commit, a side queues no application frame. */
  predicate InWindow(s: Side) {
    || s.pendingPair.Some?
    || s.inbound.AwaitAckSent?
    || s.inbound.InitiatorDerive?
    || s.inbound.CommitNext?
  }

  // ---- both sides -----------------------------------------------------------------------------

  function Play(d: Duo, m: Move): Duo {
    if m.role == Initiator then
      if m.Send? then
        if d.i.outbox == [] || d.i.committed >= MAX_COUNTER then d
        else d.(i := Sent(Initiator, d.i), toJ := d.toJ + [SentFrame(Initiator, d.i)])
      else if m.Deliver? then
        if d.toI == [] || d.i.inbound != Ready then d
        else d.(i := Take(Initiator, d.i, d.toI[0]), toI := d.toI[1..])
      else
        var x := Alone(Initiator, d.i, m, d.next);
        d.(i := x.side, next := d.next + x.pairs)
    else
      if m.Send? then
        if d.j.outbox == [] || d.j.committed >= MAX_COUNTER then d
        else d.(j := Sent(Joiner, d.j), toI := d.toI + [SentFrame(Joiner, d.j)])
      else if m.Deliver? then
        if d.toJ == [] || d.j.inbound != Ready then d
        else d.(j := Take(Joiner, d.j, d.toJ[0]), toJ := d.toJ[1..])
      else
        var x := Alone(Joiner, d.j, m, d.next);
        d.(j := x.side, next := d.next + x.pairs)
  }

  // ---- the phases of a rekey --------------------------------------------------------------------

  predicate Routine(kind: RelayKind) {
    kind == Msg || kind == Chunk || kind == RekeyDone
  }

  predicate Calm(q: seq<Frame>, outbox: seq<Task>) {
    && (forall k :: 0 <= k < |q| ==> Routine(q[k].kind))
    && (forall k :: 0 <= k < |outbox| ==> Routine(outbox[k].kind) && outbox[k].after == Done)
  }

  /** Before the rekey only routine frames and upgrade announcements are queued. */
  predicate Early(q: seq<Frame>, outbox: seq<Task>) {
    && (forall k :: 0 <= k < |q| ==> Routine(q[k].kind) || q[k].kind == ModeUpgraded)
    && (forall k :: 0 <= k < |outbox| ==>
          || (Routine(outbox[k].kind) && outbox[k].after == Done)
          || (outbox[k].kind == ModeUpgraded && outbox[k].after == MaybeRekey))
  }

  /** The frames of `q` carry the counters `lo, lo + 1, ..., hi` under `key`. */
  predicate Segment(q: seq<Frame>, key: Key, sender: Role, lo: nat, hi: nat) {
    && lo + |q| == hi + 1
    && (forall k :: 0 <= k < |q| ==>
          q[k].key == key && q[k].sender == sender && q[k].counter == lo + k && q[k].counter <= MAX_COUNTER)
  }

  function KindAt(q: seq<Frame>, outbox: seq<Task>, k: nat): RelayKind
    requires k < |q| + |outbox|
  {
    if k < |q| then q[k].kind else outbox[k - |q|].kind
  }

  /** The joiner's announcement is at most once on its way, and not at all once it has arrived. */
  predicate OneAnnouncement(d: Duo) {
    && (forall a, b :: 0 <= a < b < |d.toI| + |d.j.outbox| ==>
          !(KindAt(d.toI, d.j.outbox, a) == ModeUpgraded && KindAt(d.toI, d.j.outbox, b) == ModeUpgraded))
    && (d.i.peerPrf || !d.j.localPrf ==>
          forall a :: 0 <= a < |d.toI| + |d.j.outbox| ==> KindAt(d.toI, d.j.outbox, a) != ModeUpgraded)
    && (d.i.peerPrf ==> d.j.localPrf)
  }

  predicate Healthy(d: Duo) {
    && !d.i.ended && !d.j.ended
    && !d.j.keygen && d.j.pendingPair.None?
    && (d.i.localPrf ==> !d.i.upgrading) && (d.j.localPrf ==> !d.j.upgrading)
    && (d.i.keygen || d.i.pendingPair.Some? ==> d.i.rekeyInFlight && d.i.localPrf && d.i.peerPrf)
    && !(d.i.keygen && d.i.pendingPair.Some?)
    && (d.i.pendingPair.Some? ==> d.i.pendingPair.value < d.next)
    && (forall k :: 0 <= k < |d.i.outbox| && d.i.outbox[k].after == MaybeRekey ==> d.i.localPrf)
    && d.i.committed <= MAX_COUNTER && d.j.committed <= MAX_COUNTER
  }

  predicate OldKey(d: Duo) {
    d.i.key == d.j.key && !d.i.key.rekeyed
  }

  predicate InitTask(t: Task, p: nat) {
    t == Task(RekeyInit, PublicKey(p), Done)
  }

  /** REKEY_INIT not yet sealed. */
  predicate PhaseBefore(d: Duo) {
    && OldKey(d) && d.i.inbound == Ready && d.j.inbound == Ready
    && Segment(d.toJ, d.i.key, Initiator, d.j.recv + 1, d.i.committed)
    && Segment(d.toI, d.j.key, Joiner, d.i.recv + 1, d.j.committed)
    && Early(d.toI, d.j.outbox) && OneAnnouncement(d)
    && (d.i.pendingPair.None? ==> Early(d.toJ, d.i.outbox))
    && (d.i.pendingPair.Some? ==>
          && d.i.outbox != []
          && InitTask(d.i.outbox[|d.i.outbox| - 1], d.i.pendingPair.value)
          && Early(d.toJ, d.i.outbox[..|d.i.outbox| - 1]))
  }

  /** The initiator waits for the answer to its sealed REKEY_INIT; nothing of it is queued. */
  predicate Waiting(d: Duo) {
    && d.i.pendingPair.Some? && d.i.outbox == [] && d.i.inbound == Ready && !d.i.key.rekeyed
    && d.j.localPrf
  }

  predicate PhaseInit(d: Duo) {
    && OldKey(d) && Waiting(d) && d.j.inbound == Ready
    && Segment(d.toJ, d.i.key, Initiator, d.j.recv + 1, d.i.committed)
    && Segment(d.toI, d.j.key, Joiner, d.i.recv + 1, d.j.committed)
    && Calm(d.toI, d.j.outbox)
    && d.toJ != []
    && d.toJ[|d.toJ| - 1].kind == RekeyInit
    && d.toJ[|d.toJ| - 1].payload == PublicKey(d.i.pendingPair.value)
    && Early(d.toJ[..|d.toJ| - 1], [])
  }

  predicate PhaseDerive(d: Duo) {
    && OldKey(d) && Waiting(d) && d.j.inbound == JoinerDerive(d.i.pendingPair.value)
    && d.toJ == [] && d.j.recv == d.i.committed
    && Segment(d.toI, d.j.key, Joiner, d.i.recv + 1, d.j.committed)
    && Calm(d.toI, d.j.outbox)
  }

  predicate AckTask(t: Task, p: nat, next: nat) {
    && t.kind == RekeyAck && t.payload.PublicKey?
    && p != t.payload.pair < next
    && t.after == Commit(Agree(t.payload.pair, p, true))
  }

  predicate PhaseAck(d: Duo) {
    && OldKey(d) && Waiting(d) && d.j.inbound == AwaitAckSent
    && d.toJ == [] && d.j.recv == d.i.committed
    && Segment(d.toI, d.j.key, Joiner, d.i.recv + 1, d.j.committed)
    && d.j.outbox != []
    && AckTask(d.j.outbox[|d.j.outbox| - 1], d.i.pendingPair.value, d.next)
    && Calm(d.toI, d.j.outbox[..|d.j.outbox| - 1])
  }

  /** The joiner's part once its REKEY_ACK is sealed: `rest` are its frames after it. */
  predicate JoinerCommits(d: Duo, oldKey: Key, newKey: Key, rest: seq<Frame>) {
    && newKey.rekeyed
    && Calm(rest, d.j.outbox)
    && (|| (d.j.key == oldKey && d.j.inbound == CommitNext(newKey) && rest == [] && d.j.outbox == [])
        || (d.j.key == newKey && d.j.recv == 0
            && (d.j.inbound == Ready || d.j.inbound == CommitPersist(newKey))
            && Segment(rest, newKey, Joiner, 1, d.j.committed)))
  }

  /** REKEY_ACK is the frame at position `m` on its way to the initiator. */
  predicate PhaseAckSealed(d: Duo, m: nat) {
    && Waiting(d) && d.toJ == []
    && m < |d.toI|
    && d.toI[m].kind == RekeyAck && d.toI[m].payload.PublicKey?
    && d.i.pendingPair.value != d.toI[m].payload.pair < d.next
    && Segment(d.toI[..m + 1], d.i.key, Joiner, d.i.recv + 1, d.i.recv + m + 1)
    && Calm(d.toI[..m], [])
    && JoinerCommits(d, d.i.key, Agree(d.toI[m].payload.pair, d.i.pendingPair.value, true), d.toI[m + 1..])
    && (d.j.key == d.i.key ==> d.j.committed == d.i.recv + m + 1)
  }

  predicate PhaseAcked(d: Duo) {
    && d.i.outbox == [] && d.toJ == [] && !d.i.key.rekeyed && d.j.localPrf && d.i.localPrf && !d.i.keygen && d.i.peerPrf
    && (|| (d.i.inbound.InitiatorDerive? && d.i.pendingPair.Some?
            && d.i.pendingPair.value != d.i.inbound.peerPub
            && JoinerCommits(d, d.i.key, Agree(d.i.inbound.peerPub, d.i.pendingPair.value, true), d.toI))
        || (d.i.inbound.CommitNext? && d.i.pendingPair.None?
            && JoinerCommits(d, d.i.key, d.i.inbound.key, d.toI)))
  }

  predicate PhaseAfter(d: Duo) {
    && d.i.key.rekeyed && d.i.pendingPair.None? && !d.i.keygen && d.i.localPrf && d.j.localPrf
    && (d.i.inbound == Ready || d.i.inbound == CommitPersist(d.i.key))
    && Calm(d.toJ, d.i.outbox) && Calm(d.toI, d.j.outbox)
    && (|| (d.j.key == d.i.key
            && (d.j.inbound == Ready || d.j.inbound == CommitPersist(d.j.key))
            && Segment(d.toJ, d.i.key, Initiator, d.j.recv + 1, d.i.committed)
            && Segment(d.toI, d.i.key, Joiner, d.i.recv + 1, d.j.committed))
        || (!d.j.key.rekeyed && d.j.inbound == CommitNext(d.i.key)
            && d.toI == [] && d.j.outbox == [] && d.i.recv == 0
            && Segment(d.toJ, d.i.key, Initiator, 1, d.i.committed)))
  }

  ghost predicate InSomePhase(d: Duo) {
    && Healthy(d)
    && (|| PhaseBefore(d)
        || PhaseInit(d)
        || PhaseDerive(d)
        || PhaseAck(d)
        || (exists m: nat :: PhaseAckSealed(d, m))
        || PhaseAcked(d)
        || PhaseAfter(d))
  }

  // ---- each phase is left only for the next -----------------------------------------------------

  lemma BeforeInitiatorSends(d: Duo)
    requires Healthy(d) && PhaseBefore(d)
    ensures InSomePhase(Play(d, Send(Initiator)))
  {
    var d' := Play(d, Send(Initiator));
    if d.i.outbox != [] && d.i.committed < MAX_COUNTER {
      if d.i.pendingPair.Some? && |d.i.outbox| == 1 {
        assert d'.toJ[..|d'.toJ| - 1] == d.toJ;
        OnlyCalm(d.toI, d.j.outbox);
        assert PhaseInit(d');
      } else if d.i.pendingPair.Some? {
        assert d'.i.outbox[..|d'.i.outbox| - 1] == d.i.outbox[..|d.i.outbox| - 1][1..];
        assert d'.i.outbox[|d'.i.outbox| - 1] == d.i.outbox[|d.i.outbox| - 1];
        assert d.i.outbox[0] == d.i.outbox[..|d.i.outbox| - 1][0];
        assert PhaseBefore(d');
      } else {
        assert PhaseBefore(d');
      }
    }
  }

  lemma BeforeJoinerSends(d: Duo)
    requires Healthy(d) && PhaseBefore(d)
    ensures InSomePhase(Play(d, Send(Joiner)))
  {
    var d' := Play(d, Send(Joiner));
    if d.j.outbox != [] && d.j.committed < MAX_COUNTER {
      assert forall a :: 0 <= a < |d.toI| + |d.j.outbox| ==>
        KindAt(d'.toI, d'.j.outbox, a) == KindAt(d.toI, d.j.outbox, a);
      assert PhaseBefore(d');
    }
  }

  lemma OnlyCalm(q: seq<Frame>, outbox: seq<Task>)
    requires Early(q, outbox)
    requires forall a :: 0 <= a < |q| + |outbox| ==> KindAt(q, outbox, a) != ModeUpgraded
    ensures Calm(q, outbox)
  {
    forall k | 0 <= k < |q| ensures Routine(q[k].kind) {
      assert KindAt(q, outbox, k) == q[k].kind;
    }
    forall k | 0 <= k < |outbox| ensures Routine(outbox[k].kind) && outbox[k].after == Done {
      assert KindAt(q, outbox, |q| + k) == outbox[k].kind;
    }
  }

  lemma BeforeDeliver(d: Duo, m: Move)
    requires Healthy(d) && PhaseBefore(d) && m.Deliver?
    ensures InSomePhase(Play(d, m))
  {
    var d' := Play(d, m);
    if m.role == Initiator && d.toI != [] {
      assert KindAt(d.toI, d.j.outbox, 0) == d.toI[0].kind;
      assert forall a :: 0 <= a < |d'.toI| + |d'.j.outbox| ==>
        KindAt(d'.toI, d'.j.outbox, a) == KindAt(d.toI, d.j.outbox, a + 1);
      assert PhaseBefore(d');
    } else if m.role == Joiner && d.toJ != [] {
      assert PhaseBefore(d');
    }
  }

  lemma BeforeInitiatorAlone(d: Duo, m: Move)
    requires Healthy(d) && PhaseBefore(d) && !m.Send? && !m.Deliver? && m.role == Initiator
    ensures InSomePhase(Play(d, m))
  {
    var d' := Play(d, m);
    if d'.i.outbox != d.i.outbox {
      assert d'.i.outbox[..|d'.i.outbox| - 1] == d.i.outbox;
    }
    assert PhaseBefore(d');
  }

  lemma BeforeJoinerAlone(d: Duo, m: Move)
    requires Healthy(d) && PhaseBefore(d) && !m.Send? && !m.Deliver? && m.role == Joiner
    ensures InSomePhase(Play(d, m))
  {
    var d' := Play(d, m);
    if d'.j.outbox != d.j.outbox {
      assert forall a :: 0 <= a < |d.toI| + |d.j.outbox| ==>
        KindAt(d'.toI, d'.j.outbox, a) == KindAt(d.toI, d.j.outbox, a);
    }
    assert PhaseBefore(d');
  }

  lemma InitDeliver(d: Duo)
    requires Healthy(d) && PhaseInit(d)
    ensures InSomePhase(Play(d, Move.Deliver(Joiner)))
  {
    var d' := Play(d, Move.Deliver(Joiner));
    if |d.toJ| > 1 {
      assert d'.toJ[..|d'.toJ| - 1] == d.toJ[..|d.toJ| - 1][1..];
      assert d.toJ[0] == d.toJ[..|d.toJ| - 1][0];
      assert PhaseInit(d');
    } else {
      assert PhaseDerive(d');
    }
  }

  lemma InitJoinerMoves(d: Duo, m: Move)
    requires Healthy(d) && PhaseInit(d) && m.role == Joiner && !m.Deliver?
    ensures InSomePhase(Play(d, m))
  {
    assert PhaseInit(Play(d, m));
  }

  lemma InitInitiatorMoves(d: Duo, m: Move)
    requires Healthy(d) && PhaseInit(d) && m.role == Initiator
    ensures InSomePhase(Play(d, m))
  {
    assert PhaseInit(Play(d, m));
  }

  lemma DeriveMoves(d: Duo, m: Move)
    requires Healthy(d) && PhaseDerive(d)
    ensures InSomePhase(Play(d, m))
  {
    var d' := Play(d, m);
    if m.role == Joiner && m.Derive? {
      assert d'.j.outbox[..|d'.j.outbox| - 1] == d.j.outbox;
      assert PhaseAck(d');
    } else {
      assert PhaseDerive(d');
    }
  }

  lemma AckSend(d: Duo)
    requires Healthy(d) && PhaseAck(d)
    ensures InSomePhase(Play(d, Send(Joiner)))
  {
    var d' := Play(d, Send(Joiner));
    if d.j.committed < MAX_COUNTER {
      if |d.j.outbox| == 1 {
        var k := |d.toI|;
        assert d'.toI[..k] == d.toI && d'.toI[k + 1..] == [];
        assert d'.toI[..k + 1] == d'.toI;
        assert PhaseAckSealed(d', k);
      } else {
        assert d'.j.outbox[..|d'.j.outbox| - 1] == d.j.outbox[..|d.j.outbox| - 1][1..];
        assert d'.j.outbox[|d'.j.outbox| - 1] == d.j.outbox[|d.j.outbox| - 1];
        assert d.j.outbox[0] == d.j.outbox[..|d.j.outbox| - 1][0];
        assert PhaseAck(d');
      }
    } else {
      assert PhaseAck(d');
    }
  }

  lemma AckMoves(d: Duo, m: Move)
    requires Healthy(d) && PhaseAck(d) && m != Send(Joiner)
    ensures InSomePhase(Play(d, m))
  {
    assert PhaseAck(Play(d, m));
  }

  lemma AckSealedDeliver(d: Duo, k: nat)
    requires Healthy(d) && PhaseAckSealed(d, k)
    ensures InSomePhase(Play(d, Move.Deliver(Initiator)))
  {
    var d' := Play(d, Move.Deliver(Initiator));
    assert d.toI[0] == d.toI[..k + 1][0];
    if k == 0 {
      assert d'.toI == d.toI[k + 1..];
      assert PhaseAcked(d');
    } else {
      assert d.toI[0] == d.toI[..k][0];
      assert d'.toI[..k] == d.toI[..k + 1][1..];
      assert d'.toI[..k - 1] == d.toI[..k][1..];
      assert d'.toI[k..] == d.toI[k + 1..];
      assert PhaseAckSealed(d', k - 1);
    }
  }

  lemma AckSealedSend(d: Duo, k: nat)
    requires Healthy(d) && PhaseAckSealed(d, k)
    ensures InSomePhase(Play(d, Send(Joiner)))
  {
    var d' := Play(d, Send(Joiner));
    if d.j.outbox != [] && d.j.committed < MAX_COUNTER {
      assert d'.toI[..k] == d.toI[..k] && d'.toI[..k + 1] == d.toI[..k + 1];
      assert d'.toI[k + 1..] == d.toI[k + 1..] + [SentFrame(Joiner, d.j)];
      assert JoinerCommits(d', d.i.key, Agree(d.toI[k].payload.pair, d.i.pendingPair.value, true), d'.toI[k + 1..]);
    }
    assert PhaseAckSealed(d', k);
  }

  lemma AckSealedMoves(d: Duo, k: nat, m: Move)
    requires Healthy(d) && PhaseAckSealed(d, k) && m != Move.Deliver(Initiator) && m != Send(Joiner)
    ensures InSomePhase(Play(d, m))
  {
    assert PhaseAckSealed(Play(d, m), k);
  }

  lemma AckedAlone(d: Duo, m: Move)
    requires Healthy(d) && PhaseAcked(d) && !m.Send? && !m.Deliver?
    ensures InSomePhase(Play(d, m))
  {
    var d' := Play(d, m);
    if m.CommitSwitch? && m.role == Initiator && d.i.inbound.CommitNext? {
      assert PhaseAfter(d');
    } else {
      if m == Move.Derive(Initiator) && d.i.inbound.InitiatorDerive? {
        AgreeCommutes(d.i.pendingPair.value, d.i.inbound.peerPub, true);
      }
      assert PhaseAcked(d');
    }
  }

  lemma AckedMoves(d: Duo, m: Move)
    requires Healthy(d) && PhaseAcked(d) && (m.Send? || m.Deliver?)
    ensures InSomePhase(Play(d, m))
  {
    assert PhaseAcked(Play(d, m));
  }

  lemma AfterSend(d: Duo, r: Role)
    requires Healthy(d) && PhaseAfter(d)
    ensures InSomePhase(Play(d, Send(r)))
  {
    assert PhaseAfter(Play(d, Send(r)));
  }

  lemma AfterDeliver(d: Duo, r: Role)
    requires Healthy(d) && PhaseAfter(d)
    ensures InSomePhase(Play(d, Move.Deliver(r)))
  {
    assert PhaseAfter(Play(d, Move.Deliver(r)));
  }

  lemma AfterInitiatorAlone(d: Duo, m: Move)
    requires Healthy(d) && PhaseAfter(d) && !m.Send? && !m.Deliver? && m.role == Initiator
    ensures InSomePhase(Play(d, m))
  {
    assert PhaseAfter(Play(d, m));
  }

  lemma AfterJoinerAlone(d: Duo, m: Move)
    requires Healthy(d) && PhaseAfter(d) && !m.Send? && !m.Deliver? && m.role == Joiner
    ensures InSomePhase(Play(d, m))
  {
    assert PhaseAfter(Play(d, m));
  }

  lemma PlayKept(d: Duo, m: Move)
    requires InSomePhase(d)
    ensures InSomePhase(Play(d, m))
  {
    hide PhaseBefore, PhaseInit, PhaseDerive, PhaseAck, PhaseAckSealed, PhaseAcked, PhaseAfter, Play, Healthy;
    if PhaseBefore(d) {
      if m.Send? {
        if m.role == Initiator {
          BeforeInitiatorSends(d);
        } else {
          BeforeJoinerSends(d);
        }
      } else if m.Deliver? {
        BeforeDeliver(d, m);
      } else if m.role == Initiator {
        BeforeInitiatorAlone(d, m);
      } else {
        BeforeJoinerAlone(d, m);
      }
    } else if PhaseInit(d) {
      if m == Move.Deliver(Joiner) {
        InitDeliver(d);
      } else if m.role == Joiner {
        InitJoinerMoves(d, m);
      } else {
        InitInitiatorMoves(d, m);
      }
    } else if PhaseDerive(d) {
      DeriveMoves(d, m);
    } else if PhaseAck(d) {
      if m == Send(Joiner) {
        AckSend(d);
      } else {
        AckMoves(d, m);
      }
    } else if PhaseAcked(d) {
      if m.Send? || m.Deliver? {
        AckedMoves(d, m);
      } else {
        AckedAlone(d, m);
      }
    } else if PhaseAfter(d) {
      if m.Send? {
        AfterSend(d, m.role);
      } else if m.Deliver? {
        AfterDeliver(d, m.role);
      } else if m.role == Initiator {
        AfterInitiatorAlone(d, m);
      } else {
        AfterJoinerAlone(d, m);
      }
    } else {
      var k: nat :| PhaseAckSealed(d, k);
      if m == Move.Deliver(Initiator) {
        AckSealedDeliver(d, k);
      } else if m == Send(Joiner) {
        AckSealedSend(d, k);
      } else {
        AckSealedMoves(d, k, m);
      }
    }
  }
}
