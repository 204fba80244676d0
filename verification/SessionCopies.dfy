/**
 Duplicated tabs.  Duplicating a tab copies its `sessionStorage`, so a second tab holds a copy of the stored record.
 The room's lock lets only one tab of a room run at a time: a copy loaded while another tab holds the lock ends at
 once and clears itself.  Once the lock is free a copy is resumed like any other record, and the question is whether
 the tab that ran in the meantime has used counters that the copy does not know of.
 */
module SessionCopies {
  import opened Bytes
  import opened Nonce
  import opened Wire
  import opened Channel
  import opened Session
  import opened SessionSafety

  /** Both ends, each with one tab in use, and the records in their other tabs. */
  datatype Tabs = Tabs(w: World, initiators: seq<StoredSession>, joiners: seq<StoredSession>) {
    function Copies(r: Role): seq<StoredSession> {
      if r == Initiator then initiators else joiners
    }

    function Keep(r: Role, copies: seq<StoredSession>): Tabs {
      if r == Initiator then this.(initiators := copies) else this.(joiners := copies)
    }
  }

  datatype TabEvent =
    | On(ev: Event)
    | Duplicate(r: Role)
    | Load(r: Role, k: nat)

  /** The tab with the `k`-th copy takes the place of the tab in use, whose record stays behind in its own tab. */
  function Exchange(t: Tabs, r: Role, k: nat): Tabs
    requires k < |t.Copies(r)|
  {
    var c := t.Copies(r);
    var was := t.w.At(r).store;
    var rest := if was.Some? then c[k := was.value] else c[..k] + c[k + 1..];
    t.Keep(r, rest).(w := t.w.Put(r, Endpoint(Some(c[k]), None)))
  }

  function TabStep(t: Tabs, te: TabEvent): Tabs {
    match te
    case On(ev) => t.(w := Step(t.w, ev))
    case Duplicate(r) =>
      var store := t.w.At(r).store;
      if store.None? then t else t.Keep(r, t.Copies(r) + [store.value])
    case Load(r, k) =>
      var c := t.Copies(r);
      if k >= |c| then t
      else if t.w.At(r).page.Some? then t.Keep(r, c[..k] + c[k + 1..])
      else Exchange(t, r, k)
  }

  const OneTab := Tabs(Start, [], [])

  function TabRun(events: seq<TabEvent>): Tabs {
    if events == [] then OneTab else TabStep(TabRun(events[..|events| - 1]), events[|events| - 1])
  }

  // ---- copies that are behind ---------------------------------------------------------------------------

  /** `r` has used a counter under the record's key beyond the record's reservation, and startup would resume it. */
  ghost predicate Behind(log: seq<Frame>, r: Role, record: StoredSession) {
    !record.rekeying && !UsedUpTo(log, r, record.key, record.send)
  }

  /** No copy that is taken into use is behind. */
  ghost predicate LoadsNothingBehind(events: seq<TabEvent>) {
    events == [] ||
    var t := TabRun(events[..|events| - 1]);
    var te := events[|events| - 1];
    && LoadsNothingBehind(events[..|events| - 1])
    && (te.Load? && te.k < |t.Copies(te.r)| && t.w.At(te.r).page.None? ==>
          !Behind(t.w.log, te.r, t.Copies(te.r)[te.k]))
  }

  predicate CopyOk(record: StoredSession, nextPair: nat) {
    Known(record.key, nextPair) && (record.hardened ==> record.key.rekeyed)
  }

  predicate CopiesOk(copies: seq<StoredSession>, nextPair: nat) {
    forall k :: 0 <= k < |copies| ==> CopyOk(copies[k], nextPair)
  }

  predicate TabInv(t: Tabs) {
    Inv(t.w) && CopiesOk(t.initiators, t.w.nextPair) && CopiesOk(t.joiners, t.w.nextPair)
  }

  lemma StoreIsCopyOk(w: World, r: Role)
    requires Inv(w) && w.At(r).store.Some?
    ensures CopyOk(w.At(r).store.value, w.nextPair)
  {
  }

  lemma CopiesKept(copies: seq<StoredSession>, n: nat, n': nat)
    requires CopiesOk(copies, n) && n <= n'
    ensures CopiesOk(copies, n')
  {
  }

  lemma StepPairs(w: World, ev: Event)
    ensures w.nextPair <= Step(w, ev).nextPair
  {
    hide Act;
  }

  /** A record that is not behind may take the place of the one in use. */
  lemma ExchangeKept(w: World, r: Role, record: StoredSession)
    requires Inv(w) && w.At(r).page.None? && CopyOk(record, w.nextPair) && !Behind(w.log, r, record)
    ensures Inv(w.Put(r, Endpoint(Some(record), None)))
  {
    hide LiveOk, IdleOk, CountersGrow, FramesOk, InitsAllowed, RekeyAllowed;
  }

  lemma LoadKept(t: Tabs, r: Role, k: nat)
    requires TabInv(t) && k < |t.Copies(r)| && t.w.At(r).page.None? && !Behind(t.w.log, r, t.Copies(r)[k])
    ensures TabInv(Exchange(t, r, k))
  {
    ExchangeKept(t.w, r, t.Copies(r)[k]);
    if t.w.At(r).store.Some? {
      StoreIsCopyOk(t.w, r);
    }
    hide Inv, CopyOk;
  }

  lemma TabStepKept(t: Tabs, te: TabEvent)
    requires TabInv(t)
    requires te.Load? && te.k < |t.Copies(te.r)| && t.w.At(te.r).page.None? ==>
               !Behind(t.w.log, te.r, t.Copies(te.r)[te.k])
    ensures TabInv(TabStep(t, te))
  {
    hide Inv, Step, CopyOk, Exchange, Behind;
    match te
    case On(ev) =>
      StepKept(t.w, ev);
      StepPairs(t.w, ev);
      CopiesKept(t.initiators, t.w.nextPair, Step(t.w, ev).nextPair);
      CopiesKept(t.joiners, t.w.nextPair, Step(t.w, ev).nextPair);
    case Duplicate(r) =>
      if t.w.At(r).store.Some? {
        StoreIsCopyOk(t.w, r);
      }
    case Load(r, k) =>
      if k < |t.Copies(r)| && t.w.At(r).page.None? {
        LoadKept(t, r, k);
      }
  }

  lemma {:induction false} TabRunKept(events: seq<TabEvent>)
    requires LoadsNothingBehind(events)
    ensures TabInv(TabRun(events))
  {
    if events != [] {
      TabRunKept(events[..|events| - 1]);
      TabStepKept(TabRun(events[..|events| - 1]), events[|events| - 1]);
      hide TabStep, TabInv;
    }
  }

  /** However tabs are duplicated and loaded, if no copy taken into use is behind then no nonce is used twice. */
  lemma CopiesNeverReuse(events: seq<TabEvent>)
    requires LoadsNothingBehind(events)
    ensures NoncesUnique(TabRun(events).w.log)
  {
    TabRunKept(events);
    GrowingIsUnique(TabRun(events).w.log, TabRun(events).w.nextPair);
  }

  /** The record in use is never behind; so a copy is not behind when it is made. */
  lemma FreshCopyIsNotBehind(events: seq<TabEvent>, r: Role)
    requires LoadsNothingBehind(events) && TabRun(events).w.At(r).store.Some?
    ensures !Behind(TabRun(events).w.log, r, TabRun(events).w.At(r).store.value)
  {
    TabRunKept(events);
  }

  // ---- a copy that is behind meets the used counter --------------------------------------------------------

  /** The events `events` on from the world `w`. */
  function RunFrom(w: World, events: seq<Event>): World {
    if events == [] then w else Step(RunFrom(w, events[..|events| - 1]), events[|events| - 1])
  }

  lemma {:induction false} RunFromKept(w: World, events: seq<Event>)
    requires Inv(w)
    ensures Inv(RunFrom(w, events))
  {
    hide Inv, Step;
    if events != [] {
      RunFromKept(w, events[..|events| - 1]);
      StepKept(RunFrom(w, events[..|events| - 1]), events[|events| - 1]);
    }
  }

  lemma {:induction false} RunFromOn(w: World, events: seq<Event>, more: seq<Event>)
    ensures RunFrom(w, events + more) == RunFrom(RunFrom(w, events), more)
    decreases |more|
  {
    hide Step;
    if more == [] {
      assert events + more == events;
    } else {
      RunFromOn(w, events, more[..|more| - 1]);
      assert (events + more)[..|events + more| - 1] == events + more[..|more| - 1];
    }
  }

  /** `r`'s page is running under `key`, has used `used` counters of it and has nothing queued. */
  predicate Sending(w: World, r: Role, key: Key, used: nat) {
    var e := w.At(r);
    && Live(e) && !e.page.value.terminated && e.page.value.outbox == []
    && e.page.value.active.value.key == key && e.page.value.active.value.committed == used
  }

  function Text(r: Role): seq<Event> {
    [Event(r, Action.Enqueue(Msg, 0))] + [Event(r, RunTask(true, true, true))]
  }

  lemma RunFromOne(w: World, ev: Event)
    ensures RunFrom(w, [ev]) == Step(w, ev)
  {
    assert [ev][..0] == [];
    hide Step;
  }

  lemma TextSent(w: World, r: Role, key: Key, used: nat)
    requires Sending(w, r, key, used) && used < MAX_COUNTER
    ensures var w' := RunFrom(w, Text(r));
      Sending(w', r, key, used + 1) && w'.log == w.log + [Frame(key, r, used + 1, Msg, App(0))]
  {
    hide Act, RunFrom;
    SendsNext(r, w.At(r), 0, w.log, w.nextPair);
    RunFromOn(w, [Event(r, Action.Enqueue(Msg, 0))], [Event(r, RunTask(true, true, true))]);
    RunFromOne(w, Event(r, Action.Enqueue(Msg, 0)));
    RunFromOne(Step(w, Event(r, Action.Enqueue(Msg, 0))), Event(r, RunTask(true, true, true)));
  }

  /** One text after the other, a page reaches every counter above the ones it has used. */
  lemma {:induction false} ReachesCounter(w: World, r: Role, key: Key, used: nat, n: nat) returns (events: seq<Event>)
    requires Sending(w, r, key, used) && used < n <= MAX_COUNTER
    ensures w.log < RunFrom(w, events).log
    ensures var log := RunFrom(w, events).log; log[|log| - 1] == Frame(key, r, n, Msg, App(0))
    decreases n - used
  {
    hide Sending, RunFrom;
    TextSent(w, r, key, used);
    events := Text(r);
    if used + 1 < n {
      var more := ReachesCounter(RunFrom(w, Text(r)), r, key, used + 1, n);
      RunFromOn(w, Text(r), more);
      events := Text(r) + more;
    }
  }

  lemma BootSends(w: World, r: Role, record: StoredSession)
    requires w.At(r) == Endpoint(Some(record), None) && !record.rekeying
    ensures var w' := RunFrom(w, [Event(r, Boot(true))]); Sending(w', r, record.key, record.send) && w'.log == w.log
  {
    RunFromOne(w, Event(r, Boot(true)));
    hide RunFrom;
  }

  lemma BehindReuses(w: World, r: Role, record: StoredSession) returns (events: seq<Event>)
    requires w.At(r) == Endpoint(Some(record), None) && Behind(w.log, r, record)
    requires FramesOk(w.log, w.nextPair)
    ensures !NoncesUnique(RunFrom(w, events).log)
  {
    hide RunFrom, Sending;
    var i :| 0 <= i < |w.log| && w.log[i].sender == r && w.log[i].key == record.key && w.log[i].counter > record.send;
    BootSends(w, r, record);
    var booted := RunFrom(w, [Event(r, Boot(true))]);
    var more := ReachesCounter(booted, r, record.key, record.send, w.log[i].counter);
    RunFromOn(w, [Event(r, Boot(true))], more);
    events := [Event(r, Boot(true))] + more;
    var log := RunFrom(w, events).log;
    assert log[i] == w.log[i];
    assert !SealedApart(log[i], log[|log| - 1]);
  }

  /**
   Which copies keep nonces unique.  After any history in which no copy taken into use was behind, with the room's
   lock free: taking this copy into use can lead to a nonce used twice if and only if the copy is behind.
   */
  lemma CopyReusesExactlyWhenBehind(events: seq<TabEvent>, r: Role, k: nat)
    requires LoadsNothingBehind(events)
    requires k < |TabRun(events).Copies(r)| && TabRun(events).w.At(r).page.None?
    ensures (exists more :: !NoncesUnique(RunFrom(TabStep(TabRun(events), Load(r, k)).w, more).log))
            <==> Behind(TabRun(events).w.log, r, TabRun(events).Copies(r)[k])
  {
    TabRunKept(events);
    var t := TabRun(events);
    var loaded := TabStep(t, Load(r, k)).w;
    LoadedWorld(t, r, k);
    hide TabRun, RunFrom, NoncesUnique, Exchange, TabStep, LoadsNothingBehind;
    if Behind(t.w.log, r, t.Copies(r)[k]) {
      var more := BehindReuses(loaded, r, t.Copies(r)[k]);
    } else {
      LoadKept(t, r, k);
      forall more: seq<Event>
        ensures NoncesUnique(RunFrom(loaded, more).log)
      {
        RunFromKept(loaded, more);
        GrowingIsUnique(RunFrom(loaded, more).log, RunFrom(loaded, more).nextPair);
      }
    }
  }

  lemma LoadedWorld(t: Tabs, r: Role, k: nat)
    requires k < |t.Copies(r)| && t.w.At(r).page.None?
    ensures var loaded := TabStep(t, Load(r, k)).w;
      && loaded == Exchange(t, r, k).w
      && loaded.At(r) == Endpoint(Some(t.Copies(r)[k]), None)
      && loaded.log == t.w.log && loaded.nextPair == t.w.nextPair
  {
  }
}
