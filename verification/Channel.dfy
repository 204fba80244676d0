/**
 One side of the encrypted channel: the send-counter reservation, the receive checks and the
 mirror of the stored session record.  The functions state each operation on values; the classes
 below perform it on mutable state and are proved to do what the functions say.

 Cryptography is ideal.  A key is named by the two ephemeral pairs it was agreed from, so key
 agreement commutes (section 6.1 of RFC 7748), and a ciphertext opens only if it is a frame that was
 sealed under exactly that key, nonce and kind.
 */
module Channel {
  import opened Bytes
  import opened Nonce
  import opened Wire

  datatype Key = Key(lo: nat, hi: nat, rekeyed: bool)

  function Agree(own: nat, peer: nat, rekeyed: bool): Key {
    if own <= peer then Key(own, peer, rekeyed) else Key(peer, own, rekeyed)
  }

  predicate Mentions(key: Key, pair: nat) {
    key.lo == pair || key.hi == pair
  }

  lemma AgreeCommutes(own: nat, peer: nat, rekeyed: bool)
    ensures Agree(own, peer, rekeyed) == Agree(peer, own, rekeyed)
    ensures forall pair :: Mentions(Agree(own, peer, rekeyed), pair) <==> pair == own || pair == peer
  {
  }

  datatype Payload = App(data: nat) | PublicKey(pair: nat) | Nothing

  /** A sealed frame.  The sender's role is the nonce's direction byte. */
  datatype Frame = Frame(key: Key, sender: Role, counter: nat, kind: RelayKind, payload: Payload)

  function NonceOf(f: Frame): Option<NonceBytes> {
    MakeNonce(DirectionForRole(f.sender), f.counter)
  }

  /** The record in `sessionStorage`: wrapped key, reserved send counter, receive counter, phase, rekey marker. */
  datatype StoredSession = StoredSession(key: Key, send: nat, recv: nat, hardened: bool, rekeying: bool)

  datatype CounterMode = Strict | FirstGapAllowed

  datatype Active = Active(
    key: Key,
    committed: nat,
    reserved: nat,
    recv: nat,
    mode: CounterMode,
    mirror: Option<StoredSession>)

  /** The context and the stored record after an operation; `ok` is false when it threw. */
  datatype Outcome = Outcome(active: Active, store: Option<StoredSession>, ok: bool)

  // ---- sending ------------------------------------------------------------------------------

  const RESERVATION_BLOCK_TEXT := 1
  const RESERVATION_BLOCK_CHUNK := 64

  function BlockSizeFor(kind: RelayKind): nat {
    if kind == Chunk then RESERVATION_BLOCK_CHUNK else RESERVATION_BLOCK_TEXT
  }

  /** Write `m` through the mirror; the mirror keeps the new value even when the write throws. */
  function Flush(a: Active, store: Option<StoredSession>, m: StoredSession, writable: bool): Outcome {
    Outcome(a.(mirror := Some(m)), if writable then Some(m) else store, writable)
  }

  /** Reserve (and persist) a block when the old one is used up, then take the next counter. */
  function Allocate(a: Active, store: Option<StoredSession>, kind: RelayKind, writable: bool): Outcome {
    if a.committed < a.reserved then
      Outcome(a.(committed := a.committed + 1), store, true)
    else
      var next := a.reserved + BlockSizeFor(kind);
      var o := if a.mirror.None? then Outcome(a, store, true)
               else Flush(a, store, a.mirror.value.(send := next), writable);
      if o.ok then o.(active := o.active.(reserved := next, committed := a.committed + 1)) else o
  }

  /** A reservation in effect covers the counter just taken, and the record was written before it is used. */
  lemma AllocatePersistsAhead(a: Active, store: Option<StoredSession>, kind: RelayKind, writable: bool)
    requires a.committed <= a.reserved
    requires a.mirror.Some? ==> store == a.mirror && a.mirror.value.send == a.reserved
    ensures var o := Allocate(a, store, kind, writable);
            && (o.ok ==> o.active.committed == a.committed + 1 && o.active.committed <= o.active.reserved)
            && (o.ok && a.mirror.Some? ==>
                  o.store.Some? && o.active.committed <= o.store.value.send == o.active.reserved)
            && (!o.ok ==> o.store == store && o.active.committed == a.committed)
            && (o.store != store ==> o.store.Some? && o.store.value.send >= a.reserved)
  {
  }

  // ---- receiving ----------------------------------------------------------------------------

  /** A ciphertext on the wire: a frame somebody sealed, or bytes that authenticate under no key. */
  datatype Box = Sealed(frame: Frame) | Garbage

  datatype FrameResult =
    | Opened(frame: Frame)
    | InvalidDirection
    | InvalidReserved
    | CounterGap
    | DecryptFailed

  predicate Opens(log: seq<Frame>, key: Key, nonce: NonceBytes, kind: RelayKind, box: Box) {
    && box.Sealed?
    && box.frame in log
    && box.frame.key == key
    && box.frame.kind == kind
    && NonceOf(box.frame) == Some(nonce)
  }

  function Validate(log: seq<Frame>, role: Role, a: Active, kind: RelayKind, nonce: NonceBytes, box: Box): FrameResult {
    var fields := FieldsOf(nonce);
    if fields.direction != ExpectedPeerDirection(role) then InvalidDirection
    else if !fields.reservedAllZero then InvalidReserved
    else if a.mode == Strict && fields.counter != a.recv + 1 then CounterGap
    else if a.mode == FirstGapAllowed && fields.counter <= a.recv then CounterGap
    else if Opens(log, a.key, nonce, kind, box) then Opened(box.frame)
    else DecryptFailed
  }

  /** What a successful validation means, and that an honest next frame always passes it. */
  lemma ValidateMeaning(log: seq<Frame>, role: Role, a: Active, kind: RelayKind, nonce: NonceBytes, box: Box)
    ensures var r := Validate(log, role, a, kind, nonce, box);
            r.Opened? ==>
              && r.frame in log && r.frame.key == a.key && r.frame.sender == role.Peer() && r.frame.kind == kind
              && a.recv < r.frame.counter
              && (a.mode == Strict ==> r.frame.counter == a.recv + 1)
    ensures box.Sealed? && box.frame in log && box.frame.key == a.key && box.frame.kind == kind
            && box.frame.sender == role.Peer() && NonceOf(box.frame) == Some(nonce)
            && (if a.mode == Strict then box.frame.counter == a.recv + 1 else a.recv < box.frame.counter)
            ==> Validate(log, role, a, kind, nonce, box) == Opened(box.frame)
  {
    if box.Sealed? && NonceOf(box.frame) == Some(nonce) {
      ParseAfterMake(DirectionForRole(box.frame.sender), box.frame.counter);
    }
  }

  /** A text frame: persist its counter, then take it; when the write throws the counter is not taken. */
  function NoteText(a: Active, store: Option<StoredSession>, counter: nat, writable: bool): Outcome {
    var o := if a.mirror.None? then Outcome(a, store, true)
             else Flush(a, store, a.mirror.value.(recv := counter), writable);
    if o.ok then o.(active := o.active.(recv := counter)) else o
  }

  // ---- the stored record --------------------------------------------------------------------

  function MarkRekeying(a: Active, store: Option<StoredSession>, writable: bool): Outcome {
    if a.mirror.None? then Outcome(a, store, true)
    else Flush(a, store, a.mirror.value.(rekeying := true), writable)
  }

  /** The record is built from the counters at the time of writing; the key was wrapped earlier. */
  function InstallRecord(a: Active, store: Option<StoredSession>, wrapped: Key, hardened: bool, writable: bool)
    : Outcome
  {
    var record := StoredSession(wrapped, a.reserved, a.recv, hardened, false);
    if writable then Outcome(a.(mirror := Some(record)), Some(record), true) else Outcome(a, store, false)
  }

  function SwitchKey(a: Active, key: Key): Active {
    a.(key := key, committed := 0, reserved := 0, recv := 0)
  }

  /** Startup: both send counters restart from the reserved bound. */
  function Restore(record: StoredSession): Active {
    Active(record.key, record.send, record.send, record.recv, FirstGapAllowed, Some(record))
  }

  // ---- the same operations on mutable state -------------------------------------------------

  /** The tab's `sessionStorage` slot. `writable` says whether `setItem` succeeds. */
  class SessionStore {
    var item: Option<StoredSession>

    constructor ()
      ensures item == None
    {
      item := None;
    }

    method Write(record: StoredSession, writable: bool) returns (ok: bool)
      modifies this
      ensures ok == writable
      ensures item == if writable then Some(record) else old(item)
    {
      ok := writable;
      if writable {
        item := Some(record);
      }
    }
  }

  class StoredSessionMirror {
    var current: StoredSession
    const store: SessionStore

    constructor (initial: StoredSession, store: SessionStore)
      ensures current == initial && this.store == store
    {
      current := initial;
      this.store := store;
    }

    method SetCounterSend(counter: nat, writable: bool) returns (ok: bool)
      modifies this, store
      ensures current == old(current).(send := counter)
      ensures ok == writable && store.item == if writable then Some(current) else old(store.item)
    {
      current := current.(send := counter);
      ok := store.Write(current, writable);
    }

    method SetCounterRecv(counter: nat, writable: bool) returns (ok: bool)
      modifies this, store
      ensures current == old(current).(recv := counter)
      ensures ok == writable && store.item == if writable then Some(current) else old(store.item)
    {
      current := current.(recv := counter);
      ok := store.Write(current, writable);
    }

    method SetRekeyInProgress(writable: bool) returns (ok: bool)
      modifies this, store
      ensures current == old(current).(rekeying := true)
      ensures ok == writable && store.item == if writable then Some(current) else old(store.item)
    {
      current := current.(rekeying := true);
      ok := store.Write(current, writable);
    }
  }

  class ActiveContext {
    const role: Role
    const store: SessionStore
    var sessionKey: Key
    var counterCommitted: nat
    var counterReserved: nat
    var counterRecv: nat
    var nextRecvMode: CounterMode
    var mirror: StoredSessionMirror?

    ghost predicate Valid()
      reads this, mirror
    {
      mirror != null ==> mirror.store == store
    }

    ghost function View(): Active
      reads this, mirror
    {
      Active(sessionKey, counterCommitted, counterReserved, counterRecv, nextRecvMode,
             if mirror == null then None else Some(mirror.current))
    }

    constructor (role: Role, key: Key, store: SessionStore)
      ensures Valid() && this.role == role && this.store == store
      ensures View() == Active(key, 0, 0, 0, Strict, None)
    {
      this.role := role;
      this.store := store;
      sessionKey := key;
      counterCommitted, counterReserved, counterRecv := 0, 0, 0;
      nextRecvMode := Strict;
      mirror := null;
    }

    constructor Resume(role: Role, record: StoredSession, store: SessionStore)
      ensures Valid() && this.role == role && this.store == store
      ensures View() == Restore(record)
    {
      this.role := role;
      this.store := store;
      sessionKey := record.key;
      counterCommitted, counterReserved, counterRecv := record.send, record.send, record.recv;
      nextRecvMode := FirstGapAllowed;
      mirror := new StoredSessionMirror(record, store);
    }

    method AllocateSendCounter(kind: RelayKind, writable: bool) returns (counter: Option<nat>)
      requires Valid()
      modifies this, mirror, store
      ensures Valid() && mirror == old(mirror)
      ensures Outcome(View(), store.item, counter.Some?) == Allocate(old(View()), old(store.item), kind, writable)
      ensures counter.Some? ==> counter.value == View().committed
    {
      if counterCommitted >= counterReserved {
        var nextReserved := counterReserved + BlockSizeFor(kind);
        if mirror != null {
          var ok := mirror.SetCounterSend(nextReserved, writable);
          if !ok {
            return None;
          }
        }
        counterReserved := nextReserved;
      }
      counterCommitted := counterCommitted + 1;
      counter := Some(counterCommitted);
    }

    method ValidateAndDecryptFrame(ghost log: seq<Frame>, openable: bool, kind: RelayKind, nonce: NonceBytes, box: Box)
      returns (r: FrameResult)
      requires openable == Opens(log, sessionKey, nonce, kind, box)
      ensures r == Validate(log, role, View(), kind, nonce, box)
    {
      var parsed := ParseNonce(nonce);
      var fields := parsed.value;
      if fields.direction != ExpectedPeerDirection(role) {
        return InvalidDirection;
      }
      if !fields.reservedAllZero {
        return InvalidReserved;
      }
      if nextRecvMode == Strict {
        if fields.counter != counterRecv + 1 {
          return CounterGap;
        }
      } else if fields.counter <= counterRecv {
        return CounterGap;
      }
      if !openable {
        return DecryptFailed;
      }
      r := Opened(box.frame);
    }

    method NoteTextFrame(counter: nat, writable: bool) returns (ok: bool)
      requires Valid()
      modifies this, mirror, store
      ensures Valid() && mirror == old(mirror)
      ensures Outcome(View(), store.item, ok) == NoteText(old(View()), old(store.item), counter, writable)
    {
      ok := true;
      if mirror != null {
        ok := mirror.SetCounterRecv(counter, writable);
      }
      if ok {
        counterRecv := counter;
      }
    }

    method SetRekeyMarker(writable: bool) returns (ok: bool)
      requires Valid()
      modifies mirror, store
      ensures Valid()
      ensures Outcome(View(), store.item, ok) == MarkRekeying(old(View()), old(store.item), writable)
    {
      ok := true;
      if mirror != null {
        ok := mirror.SetRekeyInProgress(writable);
      }
    }

    method PersistWrappedKey(wrapped: Key, hardened: bool, writable: bool) returns (ok: bool)
      requires Valid()
      modifies this, store
      ensures Valid()
      ensures Outcome(View(), store.item, ok) == InstallRecord(old(View()), old(store.item), wrapped, hardened, writable)
    {
      var record := StoredSession(wrapped, counterReserved, counterRecv, hardened, false);
      ok := store.Write(record, writable);
      if ok {
        mirror := new StoredSessionMirror(record, store);
      }
    }

    method InstallKey(key: Key)
      requires Valid()
      modifies this
      ensures Valid() && View() == SwitchKey(old(View()), key)
    {
      sessionKey := key;
      counterCommitted, counterReserved, counterRecv := 0, 0, 0;
    }
  }
}
