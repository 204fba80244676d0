/**
 The per-address limiter: one table of token buckets per action, a cap on each table, and a collector of idle
 buckets.  The collector is shown to be invisible: it never changes a decision.
 */
module IpLimiter {
  import opened TokenBucket
  import AddressKey

  type Key = AddressKey.Key
  type Ip = AddressKey.Ip

  const IDLE_BUCKET_TTL_MS := 600_000.0
  const MAX_BUCKETS_PER_MAP := 50_000

  datatype Action = Connect | NewRoom | JoinRoom | Health

  /** An insertion-ordered map, as the language's own `Map` is. */
  datatype Table = Table(entries: map<Key, Bucket>, order: seq<Key>)

  datatype Limiter = Limiter(connect: Table, newRoom: Table, joinRoom: Table, health: Table) {
    function Of(a: Action): Table {
      match a case Connect => connect case NewRoom => newRoom case JoinRoom => joinRoom case Health => health
    }

    function With(a: Action, t: Table): (r: Limiter)
      ensures r.Of(a) == t && forall b: Action | b != a :: r.Of(b) == Of(b)
    {
      match a
      case Connect => this.(connect := t)
      case NewRoom => this.(newRoom := t)
      case JoinRoom => this.(joinRoom := t)
      case Health => this.(health := t)
    }
  }

  const EmptyTable := Table(map[], [])
  const Empty := Limiter(EmptyTable, EmptyTable, EmptyTable, EmptyTable)

  function Drop(order: seq<Key>, k: Key): (r: seq<Key>)
    ensures forall x :: x in r <==> x in order && x != k
  {
    if order == [] then []
    else if order[0] == k then Drop(order[1..], k)
    else [order[0]] + Drop(order[1..], k)
  }

  function Delete(t: Table, k: Key): Table {
    Table(t.entries - {k}, Drop(t.order, k))
  }

  function Put(t: Table, k: Key, b: Bucket): Table {
    Table(t.entries[k := b], if k in t.entries then t.order else t.order + [k])
  }

  /** A new key in a full table pushes out the oldest one. */
  function MakeRoom(t: Table, k: Key): Table {
    if k !in t.entries && |t.entries| >= MAX_BUCKETS_PER_MAP && t.order != [] then Delete(t, t.order[0]) else t
  }

  function Tokens(t: Table, limits: Limits, k: Key, now: real): real {
    if k in t.entries then Refilled(t.entries[k], limits, now) else limits.limit
  }

  function CheckTable(t: Table, limits: Limits, k: Key, now: real): Table {
    Put(MakeRoom(t, k), k, Spent(Tokens(t, limits, k, now), now))
  }

  predicate Idle(b: Bucket, now: real) {
    b.lastRefillMs < now - IDLE_BUCKET_TTL_MS
  }

  function Live(t: Table, order: seq<Key>, now: real): (r: seq<Key>)
    ensures forall x :: x in r <==> x in order && !(x in t.entries && Idle(t.entries[x], now))
  {
    if order == [] then []
    else
      var last := order[|order| - 1];
      var rest := Live(t, order[..|order| - 1], now);
      if last in t.entries && Idle(t.entries[last], now) then rest else rest + [last]
  }

  /** What the collector leaves: the entries that are not idle, in their order. */
  function Collected(t: Table, now: real): Table {
    Table(map k | k in t.entries && !Idle(t.entries[k], now) :: t.entries[k], Live(t, t.order, now))
  }

  // ---- the limiter as an object ---------------------------------------------------------------------------

  ghost predicate Distinct(order: seq<Key>) {
    forall i, j | 0 <= i < j < |order| :: order[i] != order[j]
  }

  ghost predicate TableOk(t: Table) {
    && Distinct(t.order)
    && (forall k :: k in t.order <==> k in t.entries)
    && |t.entries| <= MAX_BUCKETS_PER_MAP
  }

  /** The keys the collector has dropped after `n` entries. */
  ghost function Dropped(t: Table, n: nat, now: real): set<Key>
    requires n <= |t.order|
  {
    set k | k in t.order[..n] && k in t.entries && Idle(t.entries[k], now)
  }

  lemma DroppedGrows(t: Table, now: real, n: nat)
    requires n < |t.order|
    ensures Dropped(t, n + 1, now) == Dropped(t, n, now) +
      if t.order[n] in t.entries && Idle(t.entries[t.order[n]], now) then {t.order[n]} else {}
  {
    assert t.order[..n + 1] == t.order[..n] + [t.order[n]];
  }

  lemma LiveGrows(t: Table, now: real, n: nat)
    requires n < |t.order|
    ensures Live(t, t.order[..n + 1], now) == Live(t, t.order[..n], now) +
      if t.order[n] in t.entries && Idle(t.entries[t.order[n]], now) then [] else [t.order[n]]
  {
    assert t.order[..n + 1][..n] == t.order[..n];
  }

  lemma LoopStarts(t: Table, now: real)
    ensures Live(t, t.order[..0], now) == [] && t.entries - Dropped(t, 0, now) == t.entries
  {}

  lemma LoopEnds(t: Table, now: real)
    requires TableOk(t)
    ensures Collected(t, now) == Table(t.entries - Dropped(t, |t.order|, now), Live(t, t.order[..|t.order|], now))
  {
    assert t.order[..|t.order|] == t.order;
    assert t.entries - Dropped(t, |t.order|, now) == Collected(t, now).entries;
  }

  class AddressLimiter {
    const limits: map<Action, Limits>
    var tables: Limiter

    constructor (limits: map<Action, Limits>)
      ensures this.limits == limits && tables == Empty
    {
      this.limits := limits;
      tables := Empty;
    }

    method Check(ip: Ip, action: Action, now: real) returns (ok: bool)
      requires action in limits && TableOk(tables.Of(action))
      modifies this
      ensures var k := AddressKey.BucketKey(ip);
              && tables == old(tables).With(action, CheckTable(old(tables).Of(action), limits[action], k, now))
              && (ok <==> Allows(Tokens(old(tables).Of(action), limits[action], k, now)))
      ensures TableOk(tables.Of(action))
    {
      hide TableOk, CheckTable, Tokens, AddressKey.BucketKey;
      var k := AddressKey.BucketKey(ip);
      CheckKeepsTable(tables.Of(action), limits[action], k, now);
      var table;
      table, ok := CheckBucket(tables.Of(action), limits[action], k, now);
      tables := tables.With(action, table);
    }

    /** The body of `check` on the action's own table. */
    static method CheckBucket(t: Table, limits: Limits, k: Key, now: real) returns (table: Table, ok: bool)
      ensures table == CheckTable(t, limits, k, now)
      ensures ok <==> Allows(Tokens(t, limits, k, now))
    {
      hide Drop;
      table := t;
      if k !in t.entries && |t.entries| >= MAX_BUCKETS_PER_MAP {
        if |t.order| > 0 {
          table := Delete(t, t.order[0]);
        }
      }
      var tokens := limits.limit;
      if k in t.entries {
        var elapsedSec := (now - t.entries[k].lastRefillMs) / 1000.0;
        tokens := Min(limits.limit, t.entries[k].tokens + elapsedSec * limits.refillPerSec);
      }
      assert tokens == Tokens(t, limits, k, now);
      if tokens < 1.0 {
        table := Put(table, k, Bucket(tokens, now));
        return table, false;
      }
      table := Put(table, k, Bucket(tokens - 1.0, now));
      return table, true;
    }

    /** The collector's inner loop, over one table in insertion order. */
    static method CollectTable(t: Table, now: real) returns (r: Table)
      requires TableOk(t)
      ensures r == Collected(t, now)
    {
      hide Live, Dropped, Collected, Distinct;
      var entries, kept := t.entries, [];
      var i := 0;
      LoopStarts(t, now);
      while i < |t.order|
        invariant 0 <= i <= |t.order|
        invariant kept == Live(t, t.order[..i], now)
        invariant entries == t.entries - Dropped(t, i, now)
      {
        var k := t.order[i];
        assert k in t.order;
        LiveGrows(t, now, i);
        DroppedGrows(t, now, i);
        if t.entries[k].lastRefillMs < now - IDLE_BUCKET_TTL_MS {
          entries := entries - {k};
        } else {
          kept := kept + [k];
        }
        i := i + 1;
      }
      LoopEnds(t, now);
      r := Table(entries, kept);
    }

    method Gc(now: real)
      requires forall a: Action :: TableOk(tables.Of(a))
      modifies this
      ensures forall a: Action :: tables.Of(a) == Collected(old(tables).Of(a), now)
    {
      var c := CollectTable(tables.Of(Connect), now);
      var n := CollectTable(tables.Of(NewRoom), now);
      var j := CollectTable(tables.Of(JoinRoom), now);
      var h := CollectTable(tables.Of(Health), now);
      tables := Limiter(c, n, j, h);
    }
  }

  // ---- the cap ----------------------------------------------------------------------------------------------

  lemma {:induction false} DropKeepsDistinct(order: seq<Key>, k: Key)
    requires Distinct(order)
    ensures Distinct(Drop(order, k))
  {
    if order != [] {
      DropKeepsDistinct(order[1..], k);
      assert order[0] !in order[1..];
    }
  }

  lemma {:induction false} LiveKeepsDistinct(t: Table, order: seq<Key>, now: real)
    requires Distinct(order)
    ensures Distinct(Live(t, order, now))
  {
    if order != [] {
      LiveKeepsDistinct(t, order[..|order| - 1], now);
      assert order[|order| - 1] !in order[..|order| - 1];
    }
  }

  lemma MakeRoomMakesRoom(t: Table, k: Key)
    requires TableOk(t)
    ensures TableOk(MakeRoom(t, k))
    ensures k !in t.entries ==> k !in MakeRoom(t, k).entries && |MakeRoom(t, k).entries| < MAX_BUCKETS_PER_MAP
    ensures k in t.entries ==> MakeRoom(t, k) == t
  {
    if k !in t.entries && |t.entries| >= MAX_BUCKETS_PER_MAP {
      var x :| x in t.entries;
      assert x in t.order;
      DropKeepsDistinct(t.order, t.order[0]);
      assert t.order[0] in t.entries;
      assert |t.entries - {t.order[0]}| == |t.entries| - 1;
    }
  }

  lemma CheckKeepsTable(t: Table, limits: Limits, k: Key, now: real)
    requires TableOk(t)
    ensures TableOk(CheckTable(t, limits, k, now))
  {
    MakeRoomMakesRoom(t, k);
    var t' := MakeRoom(t, k);
    var b := Spent(Tokens(t, limits, k, now), now);
    if k in t.entries {
      assert t.entries[k := b].Keys == t.entries.Keys;
    } else {
      assert k !in t'.order;
    }
  }

  lemma CollectKeepsTable(t: Table, now: real)
    requires TableOk(t)
    ensures TableOk(Collected(t, now))
  {
    LiveKeepsDistinct(t, t.order, now);
    SubsetSize(Collected(t, now).entries.Keys, t.entries.Keys);
  }

  lemma {:induction false} SubsetSize<T>(a: set<T>, b: set<T>)
    requires a <= b
    ensures |a| <= |b|
  {
    if a != {} {
      var x :| x in a;
      SubsetSize(a - {x}, b - {x});
    }
  }

  // ---- runs -----------------------------------------------------------------------------------------------

  datatype Call = Check(key: Key, action: Action, now: real) | Gc(now: real)

  function Step(l: Limiter, limits: map<Action, Limits>, c: Call): Limiter
    requires forall a: Action :: a in limits
  {
    match c
    case Check(k, a, now) => l.With(a, CheckTable(l.Of(a), limits[a], k, now))
    case Gc(now) =>
      Limiter(Collected(l.connect, now), Collected(l.newRoom, now), Collected(l.joinRoom, now), Collected(l.health, now))
  }

  function Run(limits: map<Action, Limits>, calls: seq<Call>): Limiter
    requires forall a: Action :: a in limits
  {
    if calls == [] then Empty else Step(Run(limits, calls[..|calls| - 1]), limits, calls[|calls| - 1])
  }

  /** Whatever the calls, no table ever outgrows the cap. */
  lemma {:induction false} TablesStayCapped(limits: map<Action, Limits>, calls: seq<Call>, a: Action)
    requires forall a: Action :: a in limits
    ensures TableOk(Run(limits, calls).Of(a))
  {
    if calls != [] {
      var n := |calls| - 1;
      TablesStayCapped(limits, calls[..n], a);
      var t := Run(limits, calls[..n]).Of(a);
      match calls[n]
      case Check(k, b, now) => CheckKeepsTable(t, limits[a], k, now);
      case Gc(now) => CollectKeepsTable(t, now);
    }
  }

  // ---- the collector is invisible -----------------------------------------------------------------------------

  /** The reference limiter: it never collects and never evicts. */
  type Plain = map<(Action, Key), Bucket>

  function PlainTokens(p: Plain, limits: map<Action, Limits>, c: Call): real
    requires c.Check? && c.action in limits
  {
    if (c.action, c.key) in p then Refilled(p[(c.action, c.key)], limits[c.action], c.now)
    else limits[c.action].limit
  }

  function PlainStep(p: Plain, limits: map<Action, Limits>, c: Call): Plain
    requires forall a: Action :: a in limits
  {
    if c.Gc? then p else p[(c.action, c.key) := Spent(PlainTokens(p, limits, c), c.now)]
  }

  function PlainRun(limits: map<Action, Limits>, calls: seq<Call>): Plain
    requires forall a: Action :: a in limits
  {
    if calls == [] then map[] else PlainStep(PlainRun(limits, calls[..|calls| - 1]), limits, calls[|calls| - 1])
  }

  /** What the configuration accepts: a limit and a refill rate for every action, neither negative. */
  ghost predicate Configured(limits: map<Action, Limits>) {
    forall a: Action :: a in limits && limits[a].Valid()
  }

  /** The bucket fills up within the idle time: what makes forgetting an idle bucket harmless. */
  predicate RefillsWhileIdle(l: Limits) {
    l.limit <= 600.0 * l.refillPerSec
  }

  /** The limits the relay runs with unless configured otherwise. */
  function DefaultIpLimits(a: Action): Limits {
    match a
    case Connect => Limits(100.0, 100.0 / 60.0)
    case NewRoom => Limits(10.0, 10.0 / 60.0)
    case JoinRoom => Limits(30.0, 30.0 / 60.0)
    case Health => Limits(60.0, 60.0 / 60.0)
  }

  lemma DefaultsRefillWhileIdle(limits: map<Action, Limits>)
    requires forall a: Action :: a in limits && limits[a] == DefaultIpLimits(a)
    ensures Configured(limits) && forall a: Action :: RefillsWhileIdle(limits[a])
  {
    forall a: Action
      ensures limits[a].Valid() && RefillsWhileIdle(limits[a])
    {
      match a
      case Connect =>
      case NewRoom =>
      case JoinRoom =>
      case Health =>
    }
  }

  ghost predicate Ordered(calls: seq<Call>) {
    forall i, j | 0 <= i < j < |calls| :: calls[i].now <= calls[j].now
  }

  /** The collected table never had to evict. */
  ghost predicate NoEviction(limits: map<Action, Limits>, calls: seq<Call>)
    requires forall a: Action :: a in limits
  {
    forall i | 0 <= i < |calls| && calls[i].Check? ::
      MakeRoom(Run(limits, calls[..i]).Of(calls[i].action), calls[i].key) == Run(limits, calls[..i]).Of(calls[i].action)
  }

  /** How the two states relate at time `now`: the same buckets, but for some that are idle. */
  ghost predicate Related(t: Table, p: Plain, a: Action, limits: Limits, now: real) {
    && (forall k | k in t.entries :: (a, k) in p && t.entries[k] == p[(a, k)])
    && (forall k | (a, k) in p :: Within(p[(a, k)], limits) && p[(a, k)].lastRefillMs <= now)
    && (forall k | (a, k) in p && k !in t.entries :: Idle(p[(a, k)], now))
  }

  lemma IdleIsFull(b: Bucket, limits: Limits, now: real)
    requires limits.Valid() && RefillsWhileIdle(limits)
    requires Within(b, limits) && Idle(b, now)
    ensures Refilled(b, limits, now) == limits.limit
  {
    var elapsed, r := (now - b.lastRefillMs) / 1000.0, limits.refillPerSec;
    assert elapsed >= 600.0;
    assert elapsed * r == 600.0 * r + (elapsed - 600.0) * r;
    assert (elapsed - 600.0) * r >= 0.0;
  }

  lemma SameTokens(t: Table, p: Plain, limits: map<Action, Limits>, c: Call)
    requires Configured(limits) && c.Check? && RefillsWhileIdle(limits[c.action])
    requires Related(t, p, c.action, limits[c.action], c.now)
    ensures Tokens(t, limits[c.action], c.key, c.now) == PlainTokens(p, limits, c)
  {
    if c.key !in t.entries && (c.action, c.key) in p {
      IdleIsFull(p[(c.action, c.key)], limits[c.action], c.now);
    }
  }

  lemma SpendStaysWithin(p: Plain, limits: map<Action, Limits>, c: Call)
    requires Configured(limits) && c.Check?
    requires (c.action, c.key) in p ==>
      Within(p[(c.action, c.key)], limits[c.action]) && p[(c.action, c.key)].lastRefillMs <= c.now
    ensures Within(Spent(PlainTokens(p, limits, c), c.now), limits[c.action])
  {
    if (c.action, c.key) in p {
      var last := p[(c.action, c.key)].lastRefillMs;
      RefillAdds(limits[c.action], last, c.now, c.now);
    }
  }

  lemma CheckRelates(t: Table, p: Plain, limits: map<Action, Limits>, c: Call)
    requires Configured(limits) && c.Check? && RefillsWhileIdle(limits[c.action])
    requires Related(t, p, c.action, limits[c.action], c.now) && MakeRoom(t, c.key) == t
    ensures Related(CheckTable(t, limits[c.action], c.key, c.now), PlainStep(p, limits, c), c.action, limits[c.action], c.now)
  {
    SameTokens(t, p, limits, c);
    SpendStaysWithin(p, limits, c);
  }

  /** In one table: a step on both sides keeps them related. */
  lemma StepRelates(l: Limiter, p: Plain, limits: map<Action, Limits>, c: Call, a: Action)
    requires Configured(limits) && RefillsWhileIdle(limits[a])
    requires Related(l.Of(a), p, a, limits[a], c.now)
    requires c.Check? && c.action == a ==> MakeRoom(l.Of(a), c.key) == l.Of(a)
    ensures Related(Step(l, limits, c).Of(a), PlainStep(p, limits, c), a, limits[a], c.now)
  {
    if c.Check? && c.action == a {
      CheckRelates(l.Of(a), p, limits, c);
    }
  }

  lemma RelatedLater(t: Table, p: Plain, a: Action, limits: Limits, now: real, later: real)
    requires Related(t, p, a, limits, now) && now <= later
    ensures Related(t, p, a, limits, later)
  {}

  lemma {:induction false} RunRelates(limits: map<Action, Limits>, calls: seq<Call>, a: Action, now: real)
    requires Configured(limits) && RefillsWhileIdle(limits[a]) && Ordered(calls) && NoEviction(limits, calls)
    requires forall i | 0 <= i < |calls| :: calls[i].now <= now
    ensures Related(Run(limits, calls).Of(a), PlainRun(limits, calls), a, limits[a], now)
  {
    if calls != [] {
      hide Step, PlainStep, Related, MakeRoom;
      var n := |calls| - 1;
      PrefixNoEviction(limits, calls, n);
      RunRelates(limits, calls[..n], a, calls[n].now);
      StepRelates(Run(limits, calls[..n]), PlainRun(limits, calls[..n]), limits, calls[n], a);
      RelatedLater(Run(limits, calls).Of(a), PlainRun(limits, calls), a, limits[a], calls[n].now, now);
    } else {
      assert Run(limits, calls) == Empty && PlainRun(limits, calls) == map[];
    }
  }

  lemma PrefixNoEviction(limits: map<Action, Limits>, calls: seq<Call>, n: nat)
    requires forall a: Action :: a in limits
    requires NoEviction(limits, calls) && n <= |calls|
    ensures NoEviction(limits, calls[..n])
  {
    forall i | 0 <= i < n
      ensures calls[..n][..i] == calls[..i]
    {}
  }

  /** An action whose limit is below one whole token never allows anything, in either limiter. */
  lemma BelowOneNeverAllows(t: Table, p: Plain, limits: map<Action, Limits>, c: Call)
    requires c.Check? && c.action in limits && limits[c.action].limit < 1.0
    ensures !Allows(Tokens(t, limits[c.action], c.key, c.now)) && !Allows(PlainTokens(p, limits, c))
  {}

  /**
   Whatever collections happen in between, on a clock that never goes back and while no eviction is needed, every
   check of an action that refills while idle, or that allows nothing anyway, decides as the limiter that never
   forgets anything would.
   */
  lemma CollectingChangesNoDecision(limits: map<Action, Limits>, calls: seq<Call>, c: Call)
    requires Configured(limits) && c.Check? && Ordered(calls + [c]) && NoEviction(limits, calls)
    requires limits[c.action].limit < 1.0 || RefillsWhileIdle(limits[c.action])
    ensures Allows(Tokens(Run(limits, calls).Of(c.action), limits[c.action], c.key, c.now))
       <==> Allows(PlainTokens(PlainRun(limits, calls), limits, c))
  {
    if limits[c.action].limit < 1.0 {
      BelowOneNeverAllows(Run(limits, calls).Of(c.action), PlainRun(limits, calls), limits, c);
    } else {
      OrderedBefore(calls, c);
      RunRelates(limits, calls, c.action, c.now);
      SameTokens(Run(limits, calls).Of(c.action), PlainRun(limits, calls), limits, c);
    }
  }

  lemma OrderedBefore(calls: seq<Call>, c: Call)
    requires Ordered(calls + [c])
    ensures Ordered(calls) && forall i | 0 <= i < |calls| :: calls[i].now <= c.now
  {
    forall i | 0 <= i < |calls|
      ensures calls[i].now <= c.now
    {
      assert (calls + [c])[i] == calls[i] && (calls + [c])[|calls|] == c;
    }
    forall i, j | 0 <= i < j < |calls|
      ensures calls[i].now <= calls[j].now
    {
      assert (calls + [c])[i] == calls[i] && (calls + [c])[j] == calls[j];
    }
  }
}
