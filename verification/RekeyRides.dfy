/**
 Several moves in a row, on the line and on the duo: when every move is smooth on the duo the line follows it, a ride
 is the moves made from the fresh line, and whatever the line does is a run of `Session`.
 */
module RekeyRides {
  import opened Bytes
  import opened Nonce
  import opened Wire
  import opened Channel
  import opened Session
  import opened RekeyFifo
  import opened RekeyRefinement

  // ---- several moves --------------------------------------------------------------------------------

  /** What `Go` asks of a duo besides its phase. */
  predicate Smooth(d: Duo, m: Move) {
    var s := SideAt(d, m.role);
    !s.ended && (s.inbound.CommitPersist? ==> s.localPrf) && (m.Deliver? ==> NextFits(d, m.role))
  }

  function PlayAll(d: Duo, moves: seq<Move>): Duo
    decreases |moves|
  {
    if moves == [] then d else PlayAll(Play(d, moves[0]), moves[1..])
  }

  predicate SmoothAll(d: Duo, moves: seq<Move>)
    decreases |moves|
  {
    moves == [] || (Smooth(d, moves[0]) && SmoothAll(Play(d, moves[0]), moves[1..]))
  }

  function GoAll(l: Line, moves: seq<Move>): Line
    decreases |moves|
  {
    if moves == [] || !BothLive(l) then l else GoAll(Go(l, moves[0]), moves[1..])
  }

  lemma SmoothGo(l: Line, m: Move)
    requires LineSound(l) && Smooth(DuoOf(l), m)
    ensures LineSound(Go(l, m)) && BothLive(Go(l, m)) && DuoOf(Go(l, m)) == Play(DuoOf(l), m)
  {
    if m.Send? {
      GoSend(l, m.role);
    } else if m.Deliver? {
      GoDeliver(l, m.role);
    } else {
      GoAlone(l, m);
    }
  }

  lemma {:induction false} SmoothGoAll(l: Line, moves: seq<Move>)
    requires LineSound(l) && SmoothAll(DuoOf(l), moves)
    ensures LineSound(GoAll(l, moves)) && DuoOf(GoAll(l, moves)) == PlayAll(DuoOf(l), moves)
    decreases |moves|
  {
    LineLive(l);
    if moves != [] {
      hide Go, DuoOf, Play, LineSound, BothLive;
      SmoothGo(l, moves[0]);
      SmoothGoAll(Go(l, moves[0]), moves[1..]);
    }
  }

  /** From `d` the moves are smooth and lead to `d'`. */
  predicate Leads(d: Duo, moves: seq<Move>, d': Duo) {
    SmoothAll(d, moves) && PlayAll(d, moves) == d'
  }

  lemma LeadsTwo(d: Duo, a: Move, b: Move)
    requires Smooth(d, a) && Smooth(Play(d, a), b)
    ensures Leads(d, [a, b], Play(Play(d, a), b))
  {
    hide Play, Smooth;
    assert [a, b][1..] == [b] && [b][1..] == [];
    assert SmoothAll(Play(d, a), [b]) && PlayAll(Play(d, a), [b]) == Play(Play(d, a), b);
  }

  lemma LeadsOne(d: Duo, a: Move)
    requires Smooth(d, a)
    ensures Leads(d, [a], Play(d, a))
  {
    hide Play, Smooth;
    assert [a][1..] == [];
    assert SmoothAll(Play(d, a), []) && PlayAll(Play(d, a), []) == Play(d, a);
  }

  lemma LeadsNone(d: Duo)
    ensures Leads(d, [], d)
  {
  }

  lemma {:induction false} LeadsOn(d: Duo, before: seq<Move>, mid: Duo, after: seq<Move>, d': Duo)
    requires Leads(d, before, mid) && Leads(mid, after, d')
    ensures Leads(d, before + after, d')
    decreases |before|
  {
    hide Play, Smooth;
    if before == [] {
      assert before + after == after;
    } else {
      LeadsOn(Play(d, before[0]), before[1..], mid, after, d');
      assert (before + after)[1..] == before[1..] + after;
    }
  }

  lemma {:induction false} GoAllOn(l: Line, before: seq<Move>, after: seq<Move>)
    ensures GoAll(l, before + after) == GoAll(GoAll(l, before), after)
    decreases |before|
  {
    hide Go, BothLive;
    if before == [] {
      assert before + after == after;
    } else if BothLive(l) {
      GoAllOn(Go(l, before[0]), before[1..], after);
      assert (before + after)[1..] == before[1..] + after;
    }
  }

  lemma GoAllOne(l: Line, m: Move)
    requires BothLive(l)
    ensures GoAll(l, [m]) == Go(l, m)
  {
    hide Go, BothLive;
    assert [m][1..] == [];
  }

  // ---- rides are moves from the fresh line --------------------------------------------------------------

  lemma RideLives(moves: seq<Move>)
    ensures LineSound(Ride(moves)) && BothLive(Ride(moves)) && InSomePhase(DuoOf(Ride(moves)))
  {
    hide Ride, InSomePhase;
    LineLive(Ride(moves));
  }

  lemma RideUnfolds(moves: seq<Move>, m: Move)
    ensures BothLive(Ride(moves)) && Ride(moves + [m]) == Go(Ride(moves), m)
  {
    hide Go, InSomePhase, Play;
    RideLives(moves);
    assert (moves + [m])[..|moves|] == moves;
  }

  lemma RideStarts()
    ensures Ride([]) == FreshLine()
  {
    hide LineOk, Run;
  }

  lemma {:induction false} RideIsGoAll(moves: seq<Move>)
    ensures Ride(moves) == GoAll(FreshLine(), moves)
  {
    hide Go, Ride, GoAll, BothLive, FreshLine;
    if moves == [] {
      RideStarts();
      GoAllNone(FreshLine());
    } else {
      var n := |moves| - 1;
      assert moves == moves[..n] + [moves[n]];
      RideIsGoAll(moves[..n]);
      RideUnfolds(moves[..n], moves[n]);
      GoAllOn(FreshLine(), moves[..n], [moves[n]]);
      GoAllOne(Ride(moves[..n]), moves[n]);
    }
  }

  lemma GoAllNone(l: Line)
    ensures GoAll(l, []) == l
  {
  }

  lemma RideOn(before: seq<Move>, after: seq<Move>)
    ensures Ride(before + after) == GoAll(Ride(before), after)
  {
    hide Ride, GoAll;
    RideIsGoAll(before);
    RideIsGoAll(before + after);
    GoAllOn(FreshLine(), before, after);
  }

  // ---- every line is a run ----------------------------------------------------------------------------

  lemma GoIsRun(events: seq<Event>, l: Line, m: Move) returns (more: seq<Event>)
    requires BothLive(l) && Run(events) == l.w
    ensures events <= more && Run(more) == Go(l, m).w
  {
    hide Step, Act;
    more := events;
    if ActionFor(l, m).Some? {
      more := events + [Event(m.role, ActionFor(l, m).value)];
      assert more[..|more| - 1] == events;
    }
  }

  lemma {:induction false} GoAllIsRun(events: seq<Event>, l: Line, moves: seq<Move>) returns (more: seq<Event>)
    requires Run(events) == l.w
    ensures events <= more && Run(more) == GoAll(l, moves).w
    decreases |moves|
  {
    hide Go, Run, BothLive;
    more := events;
    if moves != [] && BothLive(l) {
      more := GoIsRun(events, l, moves[0]);
      more := GoAllIsRun(more, Go(l, moves[0]), moves[1..]);
    }
  }
}
