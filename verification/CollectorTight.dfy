/**
 The collector is invisible exactly when every action either allows nothing at all or fills its bucket up while it is
 idle.  For any other configuration there are calls whose decision a collection changes: drain a bucket to nothing,
 leave it idle just long enough, collect it, and keep asking.
 */
module CollectorTight {
  import opened Bytes
  import opened TokenBucket
  import opened IpLimiter
  import AddressKey

  /** On a clock that never goes back and without eviction, the two limiters decide `c` differently. */
  ghost predicate Changes(limits: map<Action, Limits>, calls: seq<Call>, c: Call) {
    && (forall a: Action :: a in limits)
    && c.Check? && Ordered(calls + [c]) && NoEviction(limits, calls)
    && Allows(Tokens(Run(limits, calls).Of(c.action), limits[c.action], c.key, c.now))
       != Allows(PlainTokens(PlainRun(limits, calls), limits, c))
  }

  // ---- one address under both limiters ----------------------------------------------------------------------

  /** The table holds just this bucket, or nothing. */
  ghost predicate Holds(t: Table, k: Key, b: Option<Bucket>) {
    t == match b case None => Table(map[], []) case Some(x) => Table(map[k := x], [k])
  }

  ghost predicate Has(p: Plain, a: Action, k: Key, b: Option<Bucket>) {
    match b case None => (a, k) !in p case Some(x) => (a, k) in p && p[(a, k)] == x
  }

  /** After `calls`, none later than `t`, the collecting limiter holds `c` for the address and the other one `p`. */
  ghost predicate Stands(limits: map<Action, Limits>, a: Action, k: Key, calls: seq<Call>, c: Option<Bucket>,
                         p: Option<Bucket>, t: real) {
    && Configured(limits)
    && Ordered(calls) && (forall i | 0 <= i < |calls| :: calls[i].now <= t)
    && NoEviction(limits, calls)
    && Holds(Run(limits, calls).Of(a), k, c)
    && Has(PlainRun(limits, calls), a, k, p)
  }

  function Found(b: Option<Bucket>, limits: Limits, now: real): real {
    if b.None? then limits.limit else Refilled(b.value, limits, now)
  }

  lemma OneMore(limits: map<Action, Limits>, calls: seq<Call>, c: Call, t: real)
    requires Configured(limits) && Ordered(calls) && NoEviction(limits, calls)
    requires (forall i | 0 <= i < |calls| :: calls[i].now <= t) && t <= c.now
    requires c.Check? ==> MakeRoom(Run(limits, calls).Of(c.action), c.key) == Run(limits, calls).Of(c.action)
    ensures Ordered(calls + [c]) && NoEviction(limits, calls + [c])
    ensures forall i | 0 <= i < |calls + [c]| :: (calls + [c])[i].now <= c.now
    ensures Run(limits, calls + [c]) == IpLimiter.Step(Run(limits, calls), limits, c)
    ensures PlainRun(limits, calls + [c]) == PlainStep(PlainRun(limits, calls), limits, c)
  {
    hide IpLimiter.Step, PlainStep, MakeRoom;
    var more := calls + [c];
    assert more[..|calls|] == calls;
    forall i | 0 <= i < |more| && more[i].Check?
      ensures MakeRoom(Run(limits, more[..i]).Of(more[i].action), more[i].key) == Run(limits, more[..i]).Of(more[i].action)
    {
      if i < |calls| {
        assert more[..i] == calls[..i] && more[i] == calls[i];
      }
    }
  }

  lemma CheckHolds(t: Table, limits: Limits, k: Key, now: real, b: Option<Bucket>)
    requires Holds(t, k, b)
    ensures MakeRoom(t, k) == t && Tokens(t, limits, k, now) == Found(b, limits, now)
    ensures Holds(CheckTable(t, limits, k, now), k, Some(Spent(Found(b, limits, now), now)))
  {
    var x := Spent(Found(b, limits, now), now);
    assert t.entries[k := x] == map[k := x];
  }

  /** One more check. */
  lemma Checked(limits: map<Action, Limits>, a: Action, k: Key, calls: seq<Call>, c: Option<Bucket>, p: Option<Bucket>,
                t: real, now: real)
    requires Stands(limits, a, k, calls, c, p, t) && t <= now
    ensures Stands(limits, a, k, calls + [Check(k, a, now)], Some(Spent(Found(c, limits[a], now), now)),
                   Some(Spent(Found(p, limits[a], now), now)), now)
  {
    hide CheckTable, Holds, Refilled, MakeRoom, NoEviction, Ordered, Spent, Run, PlainRun, Tokens;
    CheckHolds(Run(limits, calls).Of(a), limits[a], k, now, c);
    OneMore(limits, calls, Check(k, a, now), t);
  }

  /** A collection of the idle bucket. */
  lemma Forgotten(limits: map<Action, Limits>, a: Action, k: Key, calls: seq<Call>, b: Bucket, p: Option<Bucket>,
                  t: real, now: real)
    requires Stands(limits, a, k, calls, Some(b), p, t) && t <= now && Idle(b, now)
    ensures Stands(limits, a, k, calls + [Gc(now)], None, p, now)
  {
    var table := Run(limits, calls).Of(a);
    assert table.order == [k] && table.order[..0] == [];
    assert Live(table, table.order, now) == [];
    assert Collected(table, now).entries == map[];
    hide NoEviction, Ordered;
    OneMore(limits, calls, Gc(now), t);
  }

  /** A check on which the two would decide differently. */
  lemma Differs(limits: map<Action, Limits>, a: Action, k: Key, calls: seq<Call>, c: Option<Bucket>, p: Option<Bucket>,
                t: real, now: real)
    requires Stands(limits, a, k, calls, c, p, t) && t <= now
    requires Allows(Found(c, limits[a], now)) != Allows(Found(p, limits[a], now))
    ensures Changes(limits, calls, Check(k, a, now))
  {
    CheckHolds(Run(limits, calls).Of(a), limits[a], k, now, c);
    hide CheckTable, Holds, Refilled, MakeRoom;
    OneMore(limits, calls, Check(k, a, now), t);
  }

  ghost predicate SomeChange(limits: map<Action, Limits>) {
    exists calls, c :: Changes(limits, calls, c)
  }

  // ---- draining, waiting, collecting, asking ------------------------------------------------------------------

  /** The time in which one bucket gains `tokens`. */
  function WaitFor(limits: Limits, tokens: real): real
    requires limits.refillPerSec > 0.0
  {
    tokens / limits.refillPerSec * 1000.0
  }

  lemma WaitRefills(limits: Limits, tokens: real, t: real)
    requires limits.refillPerSec > 0.0 && tokens >= 0.0
    ensures WaitFor(limits, tokens) >= 0.0
    ensures Refill(limits, t, t + WaitFor(limits, tokens)) == tokens
  {
    assert tokens / limits.refillPerSec * limits.refillPerSec == tokens;
  }

  lemma StandsConfigured(limits: map<Action, Limits>, a: Action, k: Key, calls: seq<Call>, c: Option<Bucket>,
                         p: Option<Bucket>, t: real)
    requires Stands(limits, a, k, calls, c, p, t)
    ensures a in limits && limits[a].Valid()
  {}

  lemma FoundAtOnce(b: Bucket, limits: Limits)
    requires b.tokens <= limits.limit
    ensures Found(Some(b), limits, b.lastRefillMs) == b.tokens
  {
    assert Refill(limits, b.lastRefillMs, b.lastRefillMs) == 0.0;
  }

  /** When `c` tokens have become a whole one, fewer tokens have not. */
  lemma FoundAfterWait(c: real, p: real, t: real, limits: Limits)
    requires limits.limit >= 1.0 && limits.refillPerSec > 0.0 && 0.0 <= p <= c < 1.0
    ensures var now := t + WaitFor(limits, 1.0 - c);
      && t <= now
      && Found(Some(Bucket(c, t)), limits, now) == 1.0
      && Found(Some(Bucket(p, t)), limits, now) == 1.0 - (c - p)
  {
    hide WaitFor, Refill;
    WaitRefills(limits, 1.0 - c, t);
  }

  /** Asking at one instant until less than a whole token is left, in both limiters alike. */
  lemma {:induction false} Drained(limits: map<Action, Limits>, a: Action, k: Key, calls: seq<Call>, b: Bucket)
    returns (more: seq<Call>, left: Bucket)
    requires Stands(limits, a, k, calls, Some(b), Some(b), b.lastRefillMs) && Within(b, limits[a])
    ensures Stands(limits, a, k, more, Some(left), Some(left), left.lastRefillMs)
    ensures left.lastRefillMs == b.lastRefillMs && 0.0 <= left.tokens < 1.0 && left.tokens <= limits[a].limit
    decreases b.tokens.Floor
  {
    hide Stands, Found;
    StandsConfigured(limits, a, k, calls, Some(b), Some(b), b.lastRefillMs);
    more, left := calls, b;
    if b.tokens >= 1.0 {
      var t := b.lastRefillMs;
      FoundAtOnce(b, limits[a]);
      Checked(limits, a, k, calls, Some(b), Some(b), t, t);
      more, left := Drained(limits, a, k, calls + [Check(k, a, t)], Bucket(b.tokens - 1.0, t));
    }
  }

  /** From a residue below one token: wait until it is a whole one and spend it. */
  lemma Emptied(limits: map<Action, Limits>, a: Action, k: Key, calls: seq<Call>, b: Bucket)
    returns (more: seq<Call>, t: real)
    requires Stands(limits, a, k, calls, Some(b), Some(b), b.lastRefillMs)
    requires 0.0 <= b.tokens < 1.0 <= limits[a].limit && limits[a].refillPerSec > 0.0
    ensures Stands(limits, a, k, more, Some(Bucket(0.0, t)), Some(Bucket(0.0, t)), t)
  {
    hide Stands, Found, WaitFor;
    StandsConfigured(limits, a, k, calls, Some(b), Some(b), b.lastRefillMs);
    t := b.lastRefillMs + WaitFor(limits[a], 1.0 - b.tokens);
    FoundAfterWait(b.tokens, b.tokens, b.lastRefillMs, limits[a]);
    Checked(limits, a, k, calls, Some(b), Some(b), b.lastRefillMs, t);
    more := calls + [Check(k, a, t)];
  }

  /** If the collecting limiter has more tokens left than the other, asking on makes them decide differently. */
  lemma {:induction false} MoreTokensShow(limits: map<Action, Limits>, a: Action, k: Key, calls: seq<Call>, c: real,
                                          p: real, t: real)
    requires Stands(limits, a, k, calls, Some(Bucket(c, t)), Some(Bucket(p, t)), t)
    requires 0.0 <= p < c <= limits[a].limit && limits[a].limit >= 1.0 && limits[a].refillPerSec > 0.0
    ensures SomeChange(limits)
    decreases c.Floor
  {
    hide Stands, Found, WaitFor, Changes;
    var bc, bp := Bucket(c, t), Bucket(p, t);
    StandsConfigured(limits, a, k, calls, Some(bc), Some(bp), t);
    FoundAtOnce(bc, limits[a]);
    FoundAtOnce(bp, limits[a]);
    if c >= 1.0 && p >= 1.0 {
      Checked(limits, a, k, calls, Some(bc), Some(bp), t, t);
      MoreTokensShow(limits, a, k, calls + [Check(k, a, t)], c - 1.0, p - 1.0, t);
    } else if c >= 1.0 {
      Differs(limits, a, k, calls, Some(bc), Some(bp), t, t);
    } else {
      var now := t + WaitFor(limits[a], 1.0 - c);
      FoundAfterWait(c, p, t, limits[a]);
      Differs(limits, a, k, calls, Some(bc), Some(bp), t, now);
    }
  }

  /** When to collect a bucket that was emptied at `t0`: idle by then, but not full again. */
  lemma TooShort(limits: Limits, t0: real) returns (t: real)
    requires limits.Valid() && !RefillsWhileIdle(limits) && limits.refillPerSec > 0.0
    ensures Idle(Bucket(0.0, t0), t) && t0 <= t
    ensures 0.0 <= Refill(limits, t0, t) < limits.limit
  {
    var r := limits.refillPerSec;
    var spare := limits.limit - 600.0 * r;
    var extra := spare / (2.0 * r);
    assert extra > 0.0 && extra * r == spare / 2.0;
    t := t0 + (600.0 + extra) * 1000.0;
    assert (t - t0) / 1000.0 == 600.0 + extra;
    assert (600.0 + extra) * r == 600.0 * r + extra * r;
    assert 0.0 <= 600.0 * r;
  }

  lemma NothingYet(limits: map<Action, Limits>, a: Action, k: Key)
    requires Configured(limits)
    ensures Stands(limits, a, k, [], None, None, 0.0)
  {}

  /** The first check of an address, in both limiters. */
  lemma First(limits: map<Action, Limits>, a: Action, k: Key)
    requires Configured(limits) && limits[a].limit >= 1.0
    ensures Stands(limits, a, k, [Check(k, a, 0.0)], Some(Bucket(limits[a].limit - 1.0, 0.0)),
                   Some(Bucket(limits[a].limit - 1.0, 0.0)), 0.0)
  {
    hide Stands;
    NothingYet(limits, a, k);
    Checked(limits, a, k, [], None, None, 0.0, 0.0);
    assert [] + [Check(k, a, 0.0)] == [Check(k, a, 0.0)];
  }

  /** Without refill, what has been drained stays drained until it is collected. */
  lemma NoRefillShows(limits: map<Action, Limits>, a: Action, k: Key, calls: seq<Call>, b: Bucket)
    requires Stands(limits, a, k, calls, Some(b), Some(b), b.lastRefillMs)
    requires 0.0 <= b.tokens < 1.0 <= limits[a].limit && limits[a].refillPerSec == 0.0
    ensures SomeChange(limits)
  {
    hide Stands, Changes;
    StandsConfigured(limits, a, k, calls, Some(b), Some(b), b.lastRefillMs);
    var t := b.lastRefillMs + 2.0 * IDLE_BUCKET_TTL_MS;
    Forgotten(limits, a, k, calls, b, Some(b), b.lastRefillMs, t);
    assert Refill(limits[a], b.lastRefillMs, t) == 0.0;
    Differs(limits, a, k, calls + [Gc(t)], None, Some(b), t, t);
  }

  /** With refill: an empty bucket, idle just long enough, is full again only for the limiter that collected it. */
  lemma SlowRefillShows(limits: map<Action, Limits>, a: Action, k: Key, calls: seq<Call>, t0: real)
    requires Stands(limits, a, k, calls, Some(Bucket(0.0, t0)), Some(Bucket(0.0, t0)), t0)
    requires limits[a].limit >= 1.0 && limits[a].refillPerSec > 0.0 && !RefillsWhileIdle(limits[a])
    ensures SomeChange(limits)
  {
    hide Stands, Changes, Refill;
    var b := Bucket(0.0, t0);
    StandsConfigured(limits, a, k, calls, Some(b), Some(b), t0);
    var t := TooShort(limits[a], t0);
    Forgotten(limits, a, k, calls, b, Some(b), t0, t);
    var c, p := limits[a].limit, Refill(limits[a], t0, t);
    assert Found(Some(b), limits[a], t) == p;
    hide Found;
    if p < 1.0 {
      Differs(limits, a, k, calls + [Gc(t)], None, Some(b), t, t);
    } else {
      Checked(limits, a, k, calls + [Gc(t)], None, Some(b), t, t);
      MoreTokensShow(limits, a, k, calls + [Gc(t)] + [Check(k, a, t)], c - 1.0, p - 1.0, t);
    }
  }

  /**
   For any configuration with an action that allows something and refills less than its limit in 600 seconds, some
   collection changes some decision.
   */
  lemma CollectingCanChangeADecision(limits: map<Action, Limits>, a: Action, k: Key)
    requires Configured(limits) && limits[a].limit >= 1.0 && !RefillsWhileIdle(limits[a])
    ensures exists calls, c :: Changes(limits, calls, c)
  {
    hide Stands;
    First(limits, a, k);
    var calls, b := Drained(limits, a, k, [Check(k, a, 0.0)], Bucket(limits[a].limit - 1.0, 0.0));
    if limits[a].refillPerSec == 0.0 {
      NoRefillShows(limits, a, k, calls, b);
    } else {
      var more, t := Emptied(limits, a, k, calls, b);
      SlowRefillShows(limits, a, k, more, t);
    }
    assert SomeChange(limits);
  }

  /**
   The exact condition, for every configuration the program accepts: collecting never changes a decision if and only
   if every action either allows nothing at all or refills its whole limit in 600 seconds.
   */
  lemma InvisibleExactly(limits: map<Action, Limits>)
    requires Configured(limits)
    ensures (forall calls, c :: !Changes(limits, calls, c)) <==>
      forall a: Action :: limits[a].limit < 1.0 || limits[a].limit <= 600.0 * limits[a].refillPerSec
  {
    if a: Action :| limits[a].limit >= 1.0 && !RefillsWhileIdle(limits[a]) {
      CollectingCanChangeADecision(limits, a, AddressKey.Key(""));
    } else {
      forall calls, c
        ensures !Changes(limits, calls, c)
      {
        if c.Check? && Ordered(calls + [c]) && NoEviction(limits, calls) {
          assert limits[c.action].limit < 1.0 || RefillsWhileIdle(limits[c.action]);
          CollectingChangesNoDecision(limits, calls, c);
        }
      }
    }
  }
}
