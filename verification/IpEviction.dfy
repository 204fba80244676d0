/** Which bucket a full table gives up: the one that was inserted first, and no other. */
module IpEviction {
  import opened TokenBucket
  import opened IpLimiter

  /** The call at which `k` last came into the table. */
  function InsertedAt(limits: map<Action, Limits>, calls: seq<Call>, a: Action, k: Key): nat
    requires forall b: Action :: b in limits
    requires k in Run(limits, calls).Of(a).entries
  {
    var n := |calls| - 1;
    if k in Run(limits, calls[..n]).Of(a).entries then InsertedAt(limits, calls[..n], a, k) else n
  }

  /** The table's keys are listed in the order of their ranks. */
  ghost predicate Ranked(order: seq<Key>, rank: map<Key, nat>) {
    && (forall k | k in order :: k in rank)
    && forall i, j | 0 <= i < j < |order| :: rank[order[i]] < rank[order[j]]
  }

  ghost function Ranks(limits: map<Action, Limits>, calls: seq<Call>, a: Action): map<Key, nat>
    requires forall b: Action :: b in limits
  {
    map k | k in Run(limits, calls).Of(a).entries :: InsertedAt(limits, calls, a, k)
  }

  lemma RankedSome(order: seq<Key>, rank: map<Key, nat>, rank': map<Key, nat>)
    requires Ranked(order, rank)
    requires forall k | k in order :: k in rank' && rank'[k] == rank[k]
    ensures Ranked(order, rank')
  {
    assert forall i | 0 <= i < |order| :: order[i] in order;
  }

  lemma {:induction false} DropFirst(order: seq<Key>, k: Key)
    requires k !in order
    ensures Drop(order, k) == order
  {
    if order != [] {
      DropFirst(order[1..], k);
    }
  }

  lemma {:induction false} LiveRanked(t: Table, order: seq<Key>, now: real, rank: map<Key, nat>)
    requires Ranked(order, rank)
    ensures Ranked(Live(t, order, now), rank)
  {
    if order != [] {
      var n := |order| - 1;
      assert forall i | 0 <= i < n :: order[..n][i] == order[i] && order[i] in order;
      LiveRanked(t, order[..n], now, rank);
      var rest := Live(t, order[..n], now);
      forall i | 0 <= i < |rest|
        ensures rank[rest[i]] < rank[order[n]]
      {
        assert rest[i] in order[..n];
        var j :| 0 <= j < n && order[..n][j] == rest[i];
        assert order[j] == rest[i];
      }
    }
  }

  lemma RankedTail(order: seq<Key>, rank: map<Key, nat>)
    requires Ranked(order, rank) && order != []
    ensures Ranked(order[1..], rank)
  {
    assert forall i | 0 <= i < |order| - 1 :: order[1..][i] == order[i + 1];
    assert forall k | k in order[1..] :: k in order;
  }

  lemma RoomMade(t: Table, k: Key)
    requires TableOk(t)
    ensures if k !in t.entries && |t.entries| >= MAX_BUCKETS_PER_MAP
            then t.order != [] && MakeRoom(t, k) == Table(t.entries - {t.order[0]}, t.order[1..])
            else MakeRoom(t, k) == t
  {
    if k !in t.entries && |t.entries| >= MAX_BUCKETS_PER_MAP {
      var x :| x in t.entries;
      assert x in t.order;
      assert t.order[0] !in t.order[1..];
      DropFirst(t.order[1..], t.order[0]);
    }
  }

  lemma PutOrder(t: Table, k: Key, b: Bucket)
    ensures Put(t, k, b).order == if k in t.entries then t.order else t.order + [k]
    ensures Put(t, k, b).entries.Keys == t.entries.Keys + {k}
    ensures forall x | x in t.entries && x != k :: Put(t, k, b).entries[x] == t.entries[x]
  {
    hide Drop;
  }

  lemma CheckPuts(t: Table, limits: Limits, k: Key, now: real) returns (b: Bucket)
    ensures CheckTable(t, limits, k, now) == Put(MakeRoom(t, k), k, b)
  {
    hide Put, MakeRoom, Spent, Tokens;
    b := Spent(Tokens(t, limits, k, now), now);
  }

  /** What a check leaves of the table it meets, and where it puts the key. */
  ghost predicate Checked(t: Table, k: Key, t': Table) {
    && (if k in t.entries then t'.order == t.order && t'.entries.Keys == t.entries.Keys
        else if |t.entries| >= MAX_BUCKETS_PER_MAP then
          t.order != [] && t'.order == t.order[1..] + [k] && t'.entries.Keys == t.entries.Keys - {t.order[0]} + {k}
        else t'.order == t.order + [k] && t'.entries.Keys == t.entries.Keys + {k})
    && forall x | x in t.entries && x in t'.entries && x != k :: t'.entries[x] == t.entries[x]
  }

  lemma CheckOrder(t: Table, limits: Limits, k: Key, now: real)
    requires TableOk(t)
    ensures Checked(t, k, CheckTable(t, limits, k, now))
  {
    hide CheckTable, Put, MakeRoom, TableOk;
    RoomMade(t, k);
    var b := CheckPuts(t, limits, k, now);
    PutOrder(MakeRoom(t, k), k, b);
  }

  lemma RankStep(limits: map<Action, Limits>, calls: seq<Call>, a: Action)
    requires forall b: Action :: b in limits
    requires calls != []
    ensures var n := |calls| - 1;
      forall k | k in Ranks(limits, calls, a) ::
        Ranks(limits, calls, a)[k] == if k in Ranks(limits, calls[..n], a) then Ranks(limits, calls[..n], a)[k] else n
  {
    hide Run;
  }

  lemma TableStep(limits: map<Action, Limits>, calls: seq<Call>, a: Action)
    requires forall b: Action :: b in limits
    requires calls != []
    ensures var t := Run(limits, calls[..|calls| - 1]).Of(a);
      Run(limits, calls).Of(a) == (match calls[|calls| - 1]
                                   case Check(k, b, now) => if b == a then CheckTable(t, limits[a], k, now) else t
                                   case Gc(now) => Collected(t, now))
  {
    hide CheckTable, Collected;
  }

  lemma {:induction false} OrderIsByInsertion(limits: map<Action, Limits>, calls: seq<Call>, a: Action)
    requires forall b: Action :: b in limits
    ensures Ranked(Run(limits, calls).Of(a).order, Ranks(limits, calls, a))
    ensures forall k | k in Ranks(limits, calls, a) :: Ranks(limits, calls, a)[k] < |calls|
  {
    if calls != [] {
      var n := |calls| - 1;
      OrderIsByInsertion(limits, calls[..n], a);
      TablesStayCapped(limits, calls[..n], a);
      TablesStayCapped(limits, calls, a);
      RankStep(limits, calls, a);
      TableStep(limits, calls, a);
      RanksKeys(limits, calls[..n], a);
      RanksKeys(limits, calls, a);
      hide Run, Ranks, Ranked, TableOk, CheckTable, Collected;
      StepRanked(Run(limits, calls[..n]).Of(a), Run(limits, calls).Of(a), limits, calls[n], a,
                 Ranks(limits, calls[..n], a), Ranks(limits, calls, a), n);
    } else {
      assert Run(limits, calls).Of(a) == EmptyTable;
    }
  }

  lemma RanksKeys(limits: map<Action, Limits>, calls: seq<Call>, a: Action)
    requires forall b: Action :: b in limits
    ensures Ranks(limits, calls, a).Keys == Run(limits, calls).Of(a).entries.Keys
  {
    hide Run;
  }

  lemma StepRanked(t: Table, t': Table, limits: map<Action, Limits>, c: Call, a: Action, rank: map<Key, nat>,
                   rank': map<Key, nat>, n: nat)
    requires forall b: Action :: b in limits
    requires TableOk(t) && TableOk(t') && Ranked(t.order, rank)
    requires rank.Keys == t.entries.Keys && rank'.Keys == t'.entries.Keys
    requires forall k | k in rank :: rank[k] < n
    requires forall k | k in rank' :: rank'[k] == if k in rank then rank[k] else n
    requires t' == (match c
                    case Check(k, b, now) => if b == a then CheckTable(t, limits[a], k, now) else t
                    case Gc(now) => Collected(t, now))
    ensures Ranked(t'.order, rank')
  {
    hide Run, CheckTable, Live, Drop, Ranked, TableOk;
    match c
    case Gc(now) =>
      LiveRanked(t, t.order, now, rank);
      CollectedSome(t, now);
      RankedSome(t'.order, rank, rank');
    case Check(k, b, now) =>
      OrderIsKeys(t);
      if b != a {
        RankedSome(t'.order, rank, rank');
      } else {
        CheckOrder(t, limits[a], k, now);
        CheckRanked(t, t', k, rank, rank', n);
      }
  }

  lemma OrderIsKeys(t: Table)
    requires TableOk(t)
    ensures forall k :: k in t.order <==> k in t.entries
    ensures forall i, j | 0 <= i < j < |t.order| :: t.order[i] != t.order[j]
  {
  }

  lemma CollectedSome(t: Table, now: real)
    requires TableOk(t)
    ensures Collected(t, now).order == Live(t, t.order, now)
    ensures forall k | k in Collected(t, now).order :: k in t.entries && k in Collected(t, now).entries
  {
  }

  lemma CheckRanked(t: Table, t': Table, k: Key, rank: map<Key, nat>, rank': map<Key, nat>, n: nat)
    requires forall x :: x in t.order <==> x in t.entries
    requires Ranked(t.order, rank) && Checked(t, k, t')
    requires forall i, j | 0 <= i < j < |t.order| :: t.order[i] != t.order[j]
    requires rank.Keys == t.entries.Keys && rank'.Keys == t'.entries.Keys
    requires forall x | x in rank :: rank[x] < n
    requires forall x | x in rank' :: rank'[x] == if x in rank then rank[x] else n
    ensures Ranked(t'.order, rank')
  {
    hide Ranked;
    if k in t.entries {
      RankedSome(t'.order, rank, rank');
    } else if |t.entries| >= MAX_BUCKETS_PER_MAP {
      RankedTail(t.order, rank);
      assert forall x | x in t.order[1..] :: x in t.order && x != t.order[0];
      RankedPush(t.order[1..], k, rank, rank', n);
    } else {
      RankedPush(t.order, k, rank, rank', n);
    }
  }

  lemma RankedPush(order: seq<Key>, k: Key, rank: map<Key, nat>, rank': map<Key, nat>, n: nat)
    requires Ranked(order, rank) && k in rank' && rank'[k] == n
    requires forall x | x in order :: x in rank' && rank'[x] == rank[x] < n
    ensures Ranked(order + [k], rank')
  {
    assert forall i | 0 <= i < |order| :: order[i] in order;
  }

  /** Of the table's keys, `k` has been in it longest. */
  ghost predicate Oldest(limits: map<Action, Limits>, calls: seq<Call>, a: Action, k: Key)
    requires forall b: Action :: b in limits
  {
    && k in Run(limits, calls).Of(a).entries
    && forall x | x in Run(limits, calls).Of(a).entries && x != k ::
         InsertedAt(limits, calls, a, k) < InsertedAt(limits, calls, a, x)
  }

  /**
   After any calls, a check of a key that is new to a full table gives up the one bucket that has been there longest,
   keeps every other as it is and adds the new key; any other check gives up none.
   */
  lemma TheOldestIsEvicted(limits: map<Action, Limits>, calls: seq<Call>, a: Action, k: Key, now: real)
    requires forall b: Action :: b in limits
    ensures var t := Run(limits, calls).Of(a);
      var t' := Step(Run(limits, calls), limits, Check(k, a, now)).Of(a);
      && (k !in t.entries && |t.entries| >= 50_000 ==>
            exists x :: Oldest(limits, calls, a, x) && t'.entries.Keys == t.entries.Keys - {x} + {k})
      && (k in t.entries || |t.entries| < 50_000 ==> t'.entries.Keys == t.entries.Keys + {k})
      && forall x | x in t.entries && x in t'.entries && x != k :: t'.entries[x] == t.entries[x]
  {
    hide Run, CheckTable, TableOk, Ranked, Oldest, InsertedAt;
    TablesStayCapped(limits, calls, a);
    OrderIsByInsertion(limits, calls, a);
    var t := Run(limits, calls).Of(a);
    CheckOrder(t, limits[a], k, now);
    if k !in t.entries && |t.entries| >= 50_000 {
      FirstIsOldest(limits, calls, a);
    }
  }

  lemma FirstIsOldest(limits: map<Action, Limits>, calls: seq<Call>, a: Action)
    requires forall b: Action :: b in limits
    requires var t := Run(limits, calls).Of(a); TableOk(t) && t.order != []
    requires Ranked(Run(limits, calls).Of(a).order, Ranks(limits, calls, a))
    ensures Oldest(limits, calls, a, Run(limits, calls).Of(a).order[0])
  {
    hide Run, InsertedAt;
    var t := Run(limits, calls).Of(a);
    var rank := Ranks(limits, calls, a);
    assert t.order[0] in t.order;
    forall x | x in t.entries && x != t.order[0]
      ensures rank[t.order[0]] < rank[x]
    {
      assert x in t.order;
      var i :| 0 <= i < |t.order| && t.order[i] == x;
    }
  }
}
