/** Token buckets over exact arithmetic: how many calls a bucket accepts in any stretch of time. */
module TokenBucket {
  datatype Limits = Limits(limit: real, refillPerSec: real) {
    ghost predicate Valid() { limit >= 0.0 && refillPerSec >= 0.0 }
  }

  datatype Bucket = Bucket(tokens: real, lastRefillMs: real)

  function Min(a: real, b: real): real { if a <= b then a else b }

  /** The tokens added over a stretch of time. */
  function Refill(limits: Limits, fromMs: real, toMs: real): real {
    (toMs - fromMs) / 1000.0 * limits.refillPerSec
  }

  function Refilled(b: Bucket, limits: Limits, now: real): real {
    Min(limits.limit, b.tokens + Refill(limits, b.lastRefillMs, now))
  }

  predicate Allows(tokens: real) { tokens >= 1.0 }

  /** The bucket after one call that found `tokens` tokens. */
  function Spent(tokens: real, now: real): Bucket {
    Bucket(if Allows(tokens) then tokens - 1.0 else tokens, now)
  }

  function Consume(b: Bucket, limits: Limits, now: real): Bucket {
    Spent(Refilled(b, limits, now), now)
  }

  function Fresh(limits: Limits, now: real): Bucket {
    Bucket(limits.limit, now)
  }

  ghost predicate Within(b: Bucket, limits: Limits) {
    0.0 <= b.tokens <= limits.limit
  }

  /** The per-connection bucket that limits relay frames. */
  class RelayBucket {
    var tokens: real
    var lastRefillMs: real

    ghost function View(): (b: Bucket)
      reads this
    {
      Bucket(tokens, lastRefillMs)
    }

    constructor (limits: Limits, now: real)
      ensures View() == Fresh(limits, now)
    {
      tokens, lastRefillMs := limits.limit, now;
    }

    method ConsumeRelayToken(limits: Limits, now: real) returns (ok: bool)
      modifies this
      ensures View() == Consume(old(View()), limits, now)
      ensures ok <==> Allows(Refilled(old(View()), limits, now))
    {
      var elapsedSec := (now - lastRefillMs) / 1000.0;
      var refilled := Min(limits.limit, tokens + elapsedSec * limits.refillPerSec);
      assert refilled == Refilled(View(), limits, now);
      lastRefillMs := now;
      if refilled < 1.0 {
        tokens := refilled;
        return false;
      }
      tokens := refilled - 1.0;
      return true;
    }
  }

  // ---- runs -----------------------------------------------------------------------------------------------

  /** Call times that never go back, starting no earlier than `from`. */
  ghost predicate Monotone(from: real, times: seq<real>) {
    && (forall i | 0 <= i < |times| :: from <= times[i])
    && forall i, j | 0 <= i < j < |times| :: times[i] <= times[j]
  }

  function After(b: Bucket, limits: Limits, times: seq<real>): Bucket {
    if times == [] then b
    else Consume(After(b, limits, times[..|times| - 1]), limits, times[|times| - 1])
  }

  /** How many of the calls at `times` are accepted. */
  function Accepted(b: Bucket, limits: Limits, times: seq<real>): nat {
    if times == [] then 0
    else
      var last := |times| - 1;
      Accepted(b, limits, times[..last]) +
        if Allows(Refilled(After(b, limits, times[..last]), limits, times[last])) then 1 else 0
  }

  function LastTime(b: Bucket, times: seq<real>): real {
    if times == [] then b.lastRefillMs else times[|times| - 1]
  }

  lemma RefillAdds(limits: Limits, a: real, b: real, c: real)
    requires limits.Valid() && a <= b <= c
    ensures Refill(limits, a, b) + Refill(limits, b, c) == Refill(limits, a, c)
    ensures 0.0 <= Refill(limits, a, b) <= Refill(limits, a, c)
  {
    var r := limits.refillPerSec;
    var x, y := (b - a) / 1000.0, (c - b) / 1000.0;
    assert (c - a) / 1000.0 == x + y;
    assert (x + y) * r == x * r + y * r;
    assert 0.0 <= x * r && 0.0 <= y * r;
  }

  /** Tokens stay within the limits, and the bucket remembers the time of its last call. */
  lemma {:induction false} StaysWithin(b: Bucket, limits: Limits, times: seq<real>)
    requires limits.Valid() && Within(b, limits) && Monotone(b.lastRefillMs, times)
    ensures Within(After(b, limits, times), limits)
    ensures After(b, limits, times).lastRefillMs == LastTime(b, times)
  {
    if times != [] {
      var n := |times| - 1;
      var mid := After(b, limits, times[..n]);
      StaysWithin(b, limits, times[..n]);
      RefillAdds(limits, mid.lastRefillMs, times[n], times[n]);
    }
  }

  /** Accepted calls are paid for: out of the tokens there were and the tokens refilled since. */
  lemma {:induction false} EveryCallIsPaidFor(b: Bucket, limits: Limits, times: seq<real>)
    requires limits.Valid() && Within(b, limits) && Monotone(b.lastRefillMs, times)
    ensures Accepted(b, limits, times) as real + After(b, limits, times).tokens
         <= b.tokens + Refill(limits, b.lastRefillMs, LastTime(b, times))
  {
    if times != [] {
      var n := |times| - 1;
      EveryCallIsPaidFor(b, limits, times[..n]);
      StaysWithin(b, limits, times[..n]);
      RefillAdds(limits, b.lastRefillMs, LastTime(b, times[..n]), times[n]);
    }
  }

  lemma {:induction false} AfterSplits(b: Bucket, limits: Limits, before: seq<real>, times: seq<real>)
    ensures After(b, limits, before + times) == After(After(b, limits, before), limits, times)
    ensures Accepted(b, limits, before + times) ==
      Accepted(b, limits, before) + Accepted(After(b, limits, before), limits, times)
  {
    if times == [] {
      assert before + times == before;
    } else {
      AfterSplits(b, limits, before, times[..|times| - 1]);
      assert (before + times)[..|before + times| - 1] == before + times[..|times| - 1];
    }
  }

  /** One call leaves at most what a full bucket holds, less the call if it was accepted. */
  lemma OneCall(b: Bucket, limits: Limits, time: real)
    requires limits.Valid() && Within(b, limits) && b.lastRefillMs <= time
    ensures After(b, limits, [time]) == Consume(b, limits, time)
    ensures Accepted(b, limits, [time]) as real + After(b, limits, [time]).tokens <= limits.limit
  {
    assert [time][..0] == [];
    RefillAdds(limits, b.lastRefillMs, time, time);
  }

  /** One call may be accepted on the full bucket; the rest of a window is paid for from its first call on. */
  lemma PaidFromTheFirstCall(b: Bucket, limits: Limits, times: seq<real>)
    requires limits.Valid() && Within(b, limits) && Monotone(b.lastRefillMs, times) && times != []
    ensures Accepted(b, limits, times) as real <= limits.limit + Refill(limits, times[0], times[|times| - 1])
  {
    hide Refill, Refilled, Accepted, After, Within;
    var first, rest := [times[0]], times[1..];
    assert times == first + rest;
    AfterSplits(b, limits, first, rest);
    OneCall(b, limits, times[0]);
    var b' := After(b, limits, first);
    StaysWithin(b, limits, first);
    EveryCallIsPaidFor(b', limits, rest);
    TokensLeft(b', limits, rest);
    assert LastTime(b', rest) == times[|times| - 1];
  }

  lemma TokensLeft(b: Bucket, limits: Limits, times: seq<real>)
    requires limits.Valid() && Within(b, limits) && Monotone(b.lastRefillMs, times)
    ensures After(b, limits, times).tokens >= 0.0
  {
    StaysWithin(b, limits, times);
    hide After;
  }

  /**
   The rate bound: after any earlier calls, the calls that fall between `fromMs` and `toMs` have at most
   `limit + refillPerSec * (toMs - fromMs) / 1000` of them accepted.
   */
  lemma WindowBound(limits: Limits, created: real, before: seq<real>, window: seq<real>, fromMs: real, toMs: real)
    requires limits.Valid() && Monotone(created, before + window)
    requires fromMs <= toMs && forall i | 0 <= i < |window| :: fromMs <= window[i] <= toMs
    ensures
      var b := Fresh(limits, created);
      Accepted(b, limits, before + window) as real - Accepted(b, limits, before) as real
        <= limits.limit + Refill(limits, fromMs, toMs)
  {
    var b := Fresh(limits, created);
    AfterSplits(b, limits, before, window);
    assert forall i | 0 <= i < |before| :: before[i] == (before + window)[i];
    assert forall i | 0 <= i < |window| :: window[i] == (before + window)[|before| + i];
    StaysWithin(b, limits, before);
    if window == [] {
      RefillAdds(limits, fromMs, toMs, toMs);
    } else {
      var b' := After(b, limits, before);
      PaidFromTheFirstCall(b', limits, window);
      RefillAdds(limits, fromMs, window[0], window[|window| - 1]);
      RefillAdds(limits, fromMs, window[|window| - 1], toMs);
      RefillAdds(limits, window[0], window[|window| - 1], toMs);
      RefillAdds(limits, fromMs, window[0], toMs);
    }
  }

  /** And the limit is really granted: a burst on a full bucket has as many calls accepted as there are whole tokens. */
  lemma {:induction false} BurstIsGranted(limits: Limits, now: real, n: nat)
    requires limits.Valid() && n as real <= limits.limit
    ensures var times := seq(n, _ => now);
      && Accepted(Fresh(limits, now), limits, times) == n
      && After(Fresh(limits, now), limits, times) == Bucket(limits.limit - n as real, now)
  {
    if n > 0 {
      BurstIsGranted(limits, now, n - 1);
      assert seq(n, _ => now)[..n - 1] == seq(n - 1, _ => now);
      assert Refill(limits, now, now) == 0.0;
    }
  }

  // ---- refused calls ----------------------------------------------------------------------------------------

  /** The times of the calls that are accepted. */
  function AcceptedTimes(b: Bucket, limits: Limits, times: seq<real>): seq<real> {
    if times == [] then []
    else
      var last := |times| - 1;
      AcceptedTimes(b, limits, times[..last]) +
        if Allows(Refilled(After(b, limits, times[..last]), limits, times[last])) then [times[last]] else []
  }

  lemma {:induction false} AcceptedAreSome(b: Bucket, limits: Limits, times: seq<real>)
    requires Monotone(b.lastRefillMs, times)
    ensures Monotone(b.lastRefillMs, AcceptedTimes(b, limits, times))
    ensures forall x | x in AcceptedTimes(b, limits, times) :: x in times
    ensures |AcceptedTimes(b, limits, times)| == Accepted(b, limits, times)
  {
    hide Refilled, After;
    if times != [] {
      var n := |times| - 1;
      AcceptedAreSome(b, limits, times[..n]);
      forall x | x in times[..n] ensures x <= times[n] {
        var i :| 0 <= i < n && times[..n][i] == x;
        assert times[i] <= times[n];
      }
      var kept := AcceptedTimes(b, limits, times[..n]);
      assert forall i | 0 <= i < |kept| :: kept[i] in kept && kept[i] in times[..n];
      assert times[n] in times;
    }
  }

  lemma RefillTwice(limits: Limits, tokens: real, a: real, t: real, now: real)
    requires limits.Valid() && a <= t <= now
    ensures Min(limits.limit, Min(limits.limit, tokens + Refill(limits, a, t)) + Refill(limits, t, now))
         == Min(limits.limit, tokens + Refill(limits, a, now))
  {
    RefillAdds(limits, a, t, now);
    RefillAdds(limits, t, now, now);
  }

  /** The accepted calls end no later than the list does. */
  lemma AcceptedEndBy(b: Bucket, limits: Limits, times: seq<real>, t: real)
    requires Monotone(b.lastRefillMs, times + [t])
    ensures LastTime(b, AcceptedTimes(b, limits, times)) <= t && b.lastRefillMs <= t
  {
    hide AcceptedTimes;
    var all := times + [t];
    assert all[|times|] == t && forall i | 0 <= i < |times| :: times[i] == all[i];
    AcceptedAreSome(b, limits, times);
    var kept := AcceptedTimes(b, limits, times);
    if kept != [] {
      assert kept[|kept| - 1] in times;
      var i :| 0 <= i < |times| && times[i] == kept[|kept| - 1];
      assert all[i] <= all[|times|];
    }
  }

  lemma KeptRemembers(b: Bucket, limits: Limits, times: seq<real>)
    requires limits.Valid() && Within(b, limits) && Monotone(b.lastRefillMs, times)
    ensures var kept := AcceptedTimes(b, limits, times);
      After(b, limits, kept).lastRefillMs == LastTime(b, kept)
  {
    hide AcceptedTimes, After, Refill;
    AcceptedAreSome(b, limits, times);
    StaysWithin(b, limits, AcceptedTimes(b, limits, times));
  }

  /** The bucket without the refused calls finds what the other does, also after one more refused call. */
  lemma OneRefused(b: Bucket, b': Bucket, limits: Limits, t: real, now: real)
    requires limits.Valid() && b'.lastRefillMs <= t <= now
    requires Refilled(b, limits, t) == Refilled(b', limits, t) && !Allows(Refilled(b, limits, t))
    ensures Refilled(Consume(b, limits, t), limits, now) == Refilled(b', limits, now)
  {
    RefillTwice(limits, b'.tokens, b'.lastRefillMs, t, now);
    hide Refill;
  }

  /**
   A refused call costs nothing: leaving all refused calls out of a list whose times never go back leaves the tokens
   found at any later time, and so every later decision, as they are.
   */
  lemma {:induction false} RefusedCallsCostNothing(b: Bucket, limits: Limits, times: seq<real>, now: real)
    requires limits.Valid() && Within(b, limits) && Monotone(b.lastRefillMs, times)
    requires LastTime(b, times) <= now
    ensures Refilled(After(b, limits, times), limits, now)
         == Refilled(After(b, limits, AcceptedTimes(b, limits, times)), limits, now)
  {
    hide Refill, Refilled, Within, Accepted;
    if times != [] {
      var n := |times| - 1;
      var t := times[n];
      var kept := AcceptedTimes(b, limits, times[..n]);
      var mid, mid' := After(b, limits, times[..n]), After(b, limits, kept);
      assert times[..n] + [t] == times;
      assert LastTime(b, times[..n]) <= t;
      RefusedCallsCostNothing(b, limits, times[..n], t);
      AcceptedEndBy(b, limits, times[..n], t);
      KeptRemembers(b, limits, times[..n]);
      hide Monotone, LastTime;
      if Allows(Refilled(mid, limits, t)) {
        assert (kept + [t])[..|kept|] == kept;
        assert Consume(mid, limits, t) == Consume(mid', limits, t);
      } else {
        OneRefused(mid, mid', limits, t, now);
        assert kept + [] == kept;
      }
    }
  }
}
