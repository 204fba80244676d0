/**
 The rate bound of the per-address limiter: what one bucket guarantees, each address is held to for each action,
 whatever the other addresses do and whenever idle buckets are collected.
 */
module AddressRate {
  import opened TokenBucket
  import opened IpLimiter
  import opened AddressKey

  predicate Mine(c: Call, a: Action, k: Key) {
    c.Check? && c.action == a && c.key == k
  }

  /** The times at which one address asked for one action. */
  function TimesOf(calls: seq<Call>, a: Action, k: Key): seq<real> {
    if calls == [] then []
    else
      var last := calls[|calls| - 1];
      TimesOf(calls[..|calls| - 1], a, k) + if Mine(last, a, k) then [last.now] else []
  }

  /** How often the collecting limiter allowed it. */
  function AllowedOf(limits: map<Action, Limits>, calls: seq<Call>, a: Action, k: Key): nat
    requires forall b: Action :: b in limits
  {
    if calls == [] then 0
    else
      var n := |calls| - 1;
      AllowedOf(limits, calls[..n], a, k) +
        if Mine(calls[n], a, k) && Allows(Tokens(Run(limits, calls[..n]).Of(a), limits[a], k, calls[n].now)) then 1 else 0
  }

  lemma {:induction false} TimesAppend(before: seq<Call>, after: seq<Call>, a: Action, k: Key)
    ensures TimesOf(before + after, a, k) == TimesOf(before, a, k) + TimesOf(after, a, k)
  {
    if after == [] {
      assert before + after == before;
    } else {
      TimesAppend(before, after[..|after| - 1], a, k);
      assert (before + after)[..|before + after| - 1] == before + after[..|after| - 1];
    }
  }

  lemma {:induction false} TimesAreCalls(calls: seq<Call>, a: Action, k: Key, i: nat)
    requires i < |TimesOf(calls, a, k)|
    ensures exists j :: 0 <= j < |calls| && calls[j].now == TimesOf(calls, a, k)[i]
  {
    var n := |calls| - 1;
    if i < |TimesOf(calls[..n], a, k)| {
      TimesAreCalls(calls[..n], a, k, i);
      var j :| 0 <= j < n && calls[..n][j].now == TimesOf(calls, a, k)[i];
      assert calls[j].now == TimesOf(calls, a, k)[i];
    }
  }

  lemma {:induction false} TimesMonotone(calls: seq<Call>, a: Action, k: Key)
    requires Ordered(calls)
    ensures TimesOf(calls, a, k) != [] ==> Monotone(TimesOf(calls, a, k)[0], TimesOf(calls, a, k))
  {
    if calls != [] {
      var n := |calls| - 1;
      TimesMonotone(calls[..n], a, k);
      forall i | 0 <= i < |TimesOf(calls[..n], a, k)|
        ensures TimesOf(calls[..n], a, k)[i] <= calls[n].now
      {
        TimesAreCalls(calls[..n], a, k, i);
      }
    }
  }

  lemma TimesStep(calls: seq<Call>, a: Action, k: Key)
    requires calls != []
    ensures var n := |calls| - 1;
      TimesOf(calls, a, k) ==
        if Mine(calls[n], a, k) then TimesOf(calls[..n], a, k) + [calls[n].now] else TimesOf(calls[..n], a, k)
  {}

  /** The bucket a full one would have become, starting at the first call. */
  function OwnBucket(limits: Limits, times: seq<real>): Bucket {
    if times == [] then Fresh(limits, 0.0) else After(Fresh(limits, times[0]), limits, times)
  }

  /** In the limiter that never forgets, an address's bucket is that of a relay bucket of its own. */
  lemma {:induction false} PlainIsOwnBucket(limits: map<Action, Limits>, calls: seq<Call>, a: Action, k: Key)
    requires Configured(limits)
    ensures var times := TimesOf(calls, a, k);
      var p := PlainRun(limits, calls);
      if times == [] then (a, k) !in p else (a, k) in p && p[(a, k)] == OwnBucket(limits[a], times)
  {
    if calls != [] {
      hide OwnBucket, Refilled, OwnTokens;
      var n := |calls| - 1;
      PlainIsOwnBucket(limits, calls[..n], a, k);
      TimesStep(calls, a, k);
      hide TimesOf;
      if Mine(calls[n], a, k) {
        OwnStep(limits[a], TimesOf(calls[..n], a, k), calls[n].now);
        OwnFound(PlainRun(limits, calls[..n]), limits, calls[n], TimesOf(calls[..n], a, k));
      }
    }
  }

  function OwnTokens(limits: Limits, times: seq<real>, now: real): real {
    if times == [] then limits.limit else Refilled(OwnBucket(limits, times), limits, now)
  }

  /** What its own bucket has allowed the address so far. */
  function OwnAccepted(limits: Limits, times: seq<real>): nat {
    if times == [] then 0 else Accepted(Fresh(limits, times[0]), limits, times)
  }

  lemma AfterOneMore(b: Bucket, limits: Limits, times: seq<real>, now: real)
    ensures After(b, limits, times + [now]) == Consume(After(b, limits, times), limits, now)
    ensures Accepted(b, limits, times + [now]) ==
      Accepted(b, limits, times) + if Allows(Refilled(After(b, limits, times), limits, now)) then 1 else 0
  {
    assert (times + [now])[..|times|] == times;
  }

  lemma OwnStep(limits: Limits, times: seq<real>, now: real)
    ensures OwnBucket(limits, times + [now]) == Spent(OwnTokens(limits, times, now), now)
    ensures OwnAccepted(limits, times + [now]) ==
      OwnAccepted(limits, times) + if Allows(OwnTokens(limits, times, now)) then 1 else 0
  {
    if times == [] {
      assert times + [now] == [now];
      AfterOneMore(Fresh(limits, now), limits, [], now);
      assert [] + [now] == [now];
      assert Refill(limits, now, now) == 0.0;
    } else {
      AfterOneMore(Fresh(limits, times[0]), limits, times, now);
      assert (times + [now])[0] == times[0];
    }
  }

  lemma OwnFound(p: Plain, limits: map<Action, Limits>, c: Call, times: seq<real>)
    requires c.Check? && c.action in limits
    requires if times == [] then (c.action, c.key) !in p
             else (c.action, c.key) in p && p[(c.action, c.key)] == OwnBucket(limits[c.action], times)
    ensures PlainTokens(p, limits, c) == OwnTokens(limits[c.action], times, c.now)
  {}

  lemma AllowedStep(limits: map<Action, Limits>, calls: seq<Call>, c: Call, a: Action, k: Key)
    requires forall b: Action :: b in limits
    ensures AllowedOf(limits, calls + [c], a, k) == AllowedOf(limits, calls, a, k) +
      if Mine(c, a, k) && Allows(Tokens(Run(limits, calls).Of(a), limits[a], k, c.now)) then 1 else 0
  {
    hide Run, Tokens, Mine;
    assert (calls + [c])[..|calls|] == calls;
  }

  /** One call: the collecting limiter and the address's own bucket decide alike. */
  lemma DecidesAlike(limits: map<Action, Limits>, calls: seq<Call>, c: Call, a: Action, k: Key)
    requires Configured(limits) && RefillsWhileIdle(limits[a])
    requires Ordered(calls + [c]) && NoEviction(limits, calls) && Mine(c, a, k)
    ensures Allows(Tokens(Run(limits, calls).Of(a), limits[a], k, c.now))
            == Allows(OwnTokens(limits[a], TimesOf(calls, a, k), c.now))
  {
    hide OwnTokens, OwnBucket, Refilled, Run, PlainRun, NoEviction, Tokens, TimesOf, Allows, Ordered, PlainTokens;
    CollectingChangesNoDecision(limits, calls, c);
    PlainIsOwnBucket(limits, calls, a, k);
    OwnFound(PlainRun(limits, calls), limits, c, TimesOf(calls, a, k));
  }

  /** The collecting limiter allows an address exactly what its own bucket would. */
  lemma {:induction false} AllowedIsAccepted(limits: map<Action, Limits>, calls: seq<Call>, a: Action, k: Key)
    requires Configured(limits) && RefillsWhileIdle(limits[a]) && Ordered(calls) && NoEviction(limits, calls)
    ensures AllowedOf(limits, calls, a, k) == OwnAccepted(limits[a], TimesOf(calls, a, k))
  {
    hide OwnBucket, OwnTokens, Refilled, Run, NoEviction, Tokens, Allows, Mine, RefillsWhileIdle;
    if calls != [] {
      var n := |calls| - 1;
      PrefixNoEviction(limits, calls, n);
      AllowedIsAccepted(limits, calls[..n], a, k);
      TimesStep(calls, a, k);
      hide TimesOf, OwnAccepted, AllowedOf, Ordered;
      assert calls[..n] + [calls[n]] == calls;
      AllowedStep(limits, calls[..n], calls[n], a, k);
      if Mine(calls[n], a, k) {
        DecidesAlike(limits, calls[..n], calls[n], a, k);
        OwnStep(limits[a], TimesOf(calls[..n], a, k), calls[n].now);
      }
    }
  }

  /**
   The rate bound: after any earlier calls, an address has at most `limit + refillPerSec * (toMs - fromMs) / 1000` of
   its calls for one action allowed between `fromMs` and `toMs`.
   */
  lemma AddressWindowBound(limits: map<Action, Limits>, before: seq<Call>, window: seq<Call>, a: Action, k: Key,
                           fromMs: real, toMs: real)
    requires Configured(limits) && RefillsWhileIdle(limits[a])
    requires Ordered(before + window) && NoEviction(limits, before + window)
    requires fromMs <= toMs && forall i | 0 <= i < |window| :: fromMs <= window[i].now <= toMs
    ensures AllowedOf(limits, before + window, a, k) as real - AllowedOf(limits, before, a, k) as real
      <= limits[a].limit + Refill(limits[a], fromMs, toMs)
  {
    var all := before + window;
    assert all[..|before|] == before;
    PrefixNoEviction(limits, all, |before|);
    AllowedIsAccepted(limits, before, a, k);
    AllowedIsAccepted(limits, all, a, k);
    TimesAppend(before, window, a, k);
    TimesMonotone(all, a, k);
    var t0, t1 := TimesOf(before, a, k), TimesOf(window, a, k);
    forall i | 0 <= i < |t1|
      ensures fromMs <= t1[i] <= toMs
    {
      TimesAreCalls(window, a, k, i);
    }
    hide AllowedOf, TimesOf, Run, NoEviction, Refill;
    if t0 + t1 == [] {
      RefillAdds(limits[a], fromMs, toMs, toMs);
    } else {
      WindowBound(limits[a], (t0 + t1)[0], t0, t1, fromMs, toMs);
      assert t0 != [] ==> (t0 + t1)[0] == t0[0];
    }
  }

  // ---- from keys to addresses -------------------------------------------------------------------------------

  /** A call as the server makes it, with the peer's address. */
  datatype Request = Asks(ip: Ip, action: Action, now: real) | Collects(now: real)

  function KeyedOne(c: Request): Call {
    match c
    case Asks(ip, action, now) => Check(BucketKey(ip), action, now)
    case Collects(now) => Call.Gc(now)
  }

  function Keyed(requests: seq<Request>): (calls: seq<Call>)
    ensures |calls| == |requests|
  {
    if requests == [] then [] else Keyed(requests[..|requests| - 1]) + [KeyedOne(requests[|requests| - 1])]
  }

  ghost predicate AllValid(requests: seq<Request>) {
    forall i | 0 <= i < |requests| && requests[i].Asks? :: ValidIp(requests[i].ip)
  }

  /** The request comes from the network of `ip`: from its /64, or for other addresses from `ip` itself. */
  ghost predicate FromNetwork(c: Request, a: Action, ip: Ip)
    requires ValidIp(ip) && (c.Asks? ==> ValidIp(c.ip))
  {
    c.Asks? && c.action == a && SharesBucket(c.ip, ip)
  }

  /** How many requests of the whole network of `ip` were allowed. */
  ghost function AllowedToNetwork(limits: map<Action, Limits>, requests: seq<Request>, a: Action, ip: Ip): nat
    requires (forall b: Action :: b in limits) && AllValid(requests) && ValidIp(ip)
  {
    if requests == [] then 0
    else
      var n := |requests| - 1;
      var c := requests[n];
      AllowedToNetwork(limits, requests[..n], a, ip) +
        if FromNetwork(c, a, ip)
           && Allows(Tokens(Run(limits, Keyed(requests[..n])).Of(a), limits[a], BucketKey(c.ip), c.now)) then 1 else 0
  }

  lemma KeyedStep(requests: seq<Request>)
    requires requests != []
    ensures var n := |requests| - 1;
      Keyed(requests)[..n] == Keyed(requests[..n]) && Keyed(requests)[n] == KeyedOne(requests[n])
  {
    hide KeyedOne;
  }

  lemma NetworkIsOneKey(c: Request, a: Action, ip: Ip)
    requires ValidIp(ip) && (c.Asks? ==> ValidIp(c.ip))
    ensures Mine(KeyedOne(c), a, BucketKey(ip)) <==> FromNetwork(c, a, ip)
  {
    hide BucketKey, SharesBucket, ValidIp;
    if c.Asks? {
      BucketKeyExactly(c.ip, ip);
    }
  }

  lemma NetworkStep(limits: map<Action, Limits>, requests: seq<Request>, a: Action, ip: Ip)
    requires (forall b: Action :: b in limits) && AllValid(requests) && ValidIp(ip) && requests != []
    ensures var n := |requests| - 1;
      var c := requests[n];
      AllowedToNetwork(limits, requests, a, ip) == AllowedToNetwork(limits, requests[..n], a, ip) +
        if Mine(KeyedOne(c), a, BucketKey(ip))
           && Allows(Tokens(Run(limits, Keyed(requests[..n])).Of(a), limits[a], BucketKey(ip), c.now)) then 1 else 0
  {
    hide BucketKey, ValidIp, SharesBucket, Run, Tokens, Allows, Keyed;
    NetworkIsOneKey(requests[|requests| - 1], a, ip);
  }

  lemma {:induction false} NetworkAllowed(limits: map<Action, Limits>, requests: seq<Request>, a: Action, ip: Ip)
    requires (forall b: Action :: b in limits) && AllValid(requests) && ValidIp(ip)
    ensures AllowedToNetwork(limits, requests, a, ip) == AllowedOf(limits, Keyed(requests), a, BucketKey(ip))
  {
    hide BucketKey, ValidIp, Run, Tokens, Mine;
    if requests != [] {
      hide AllowedToNetwork, AllowedOf;
      var n := |requests| - 1;
      NetworkAllowed(limits, requests[..n], a, ip);
      NetworkStep(limits, requests, a, ip);
      AllowedStep(limits, Keyed(requests[..n]), KeyedOne(requests[n]), a, BucketKey(ip));
    }
  }

  lemma {:induction false} KeyedAppend(before: seq<Request>, window: seq<Request>)
    ensures Keyed(before + window) == Keyed(before) + Keyed(window)
  {
    if window == [] {
      assert before + window == before;
    } else {
      KeyedAppend(before, window[..|window| - 1]);
      assert (before + window)[..|before + window| - 1] == before + window[..|window| - 1];
    }
  }

  /** The rate bound for a network: however its addresses are written and whichever of them ask. */
  lemma NetworkWindowBound(limits: map<Action, Limits>, before: seq<Request>, window: seq<Request>, a: Action, ip: Ip,
                           fromMs: real, toMs: real)
    requires Configured(limits) && RefillsWhileIdle(limits[a]) && AllValid(before + window) && AllValid(before)
    requires ValidIp(ip) && Ordered(Keyed(before + window)) && NoEviction(limits, Keyed(before + window))
    requires fromMs <= toMs && forall i | 0 <= i < |window| :: fromMs <= window[i].now <= toMs
    ensures AllowedToNetwork(limits, before + window, a, ip) as real - AllowedToNetwork(limits, before, a, ip) as real
      <= limits[a].limit + Refill(limits[a], fromMs, toMs)
  {
    hide BucketKey, ValidIp, Refill, Run, NoEviction, Ordered, AllowedToNetwork, AllowedOf, RefillsWhileIdle, Keyed;
    NetworkAllowed(limits, before, a, ip);
    NetworkAllowed(limits, before + window, a, ip);
    KeyedAppend(before, window);
    forall i | 0 <= i < |Keyed(window)|
      ensures fromMs <= Keyed(window)[i].now <= toMs
    {
      KeyedTime(window, i);
    }
    AddressWindowBound(limits, Keyed(before), Keyed(window), a, BucketKey(ip), fromMs, toMs);
  }

  lemma {:induction false} KeyedTime(requests: seq<Request>, i: nat)
    requires i < |requests|
    ensures Keyed(requests)[i].now == requests[i].now
  {
    var n := |requests| - 1;
    if i < n {
      KeyedTime(requests[..n], i);
      KeyedStep(requests);
    }
  }
}
