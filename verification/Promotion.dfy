/** What `promote_due_returns` achieves: the loop's running state in closed form, slot accounting,
    and independence of how often it is polled. */
module Promotion {
  import opened Domain
  import opened Lists
  import opened StoreSpec
  import opened Lifecycle

  // ---- the due list ----

  lemma {:induction false} DueUpToMembers(s: State, t: TerminalId, n: nat)
    requires n <= |s.order| && Distinct(s.order)
    ensures forall b :: b in DueUpTo(s, t, n) <==> b in s.order[..n] && DueAt(s, b, t)
    ensures Distinct(DueUpTo(s, t, n))
  {
    if n > 0 {
      DueUpToMembers(s, t, n - 1);
      assert s.order[..n] == s.order[..n - 1] + [s.order[n - 1]];
      assert s.order[n - 1] !in s.order[..n - 1];
    }
  }

  lemma {:induction false} DueUpToGrows(s: State, t: TerminalId, m: nat, n: nat)
    requires m <= n <= |s.order|
    ensures DueUpTo(s, t, m) <= DueUpTo(s, t, n)
    decreases n
  {
    if m < n {
      DueUpToGrows(s, t, m, n - 1);
    }
  }

  /** The taxis seated at `t` among the first `n` of the store. */
  function SeatedUpTo(s: State, t: TerminalId, n: nat): seq<Badge>
    requires n <= |s.order|
  {
    DueUpTo(s, t, n)[..Min(FreeSlots(s, t), |DueUpTo(s, t, n)|)]
  }

  lemma SeatedUpToMembers(s: State, t: TerminalId, n: nat)
    requires n <= |s.order| && Distinct(s.order)
    ensures forall b :: b in SeatedUpTo(s, t, n) <==> b in s.order[..n] && b in SeatedList(s, t)
    ensures Distinct(SeatedUpTo(s, t, n))
  {
    DueUpToMembers(s, t, n);
    DueUpToMembers(s, t, |s.order|);
    DueUpToGrows(s, t, n, |s.order|);
    var some, all := DueUpTo(s, t, n), DueList(s, t);
    forall b | b in s.order[..n] && b in SeatedList(s, t) ensures b in SeatedUpTo(s, t, n) {
      var j :| 0 <= j < |SeatedList(s, t)| && SeatedList(s, t)[j] == b;
      assert all[j] == b && b in some;
      var k :| 0 <= k < |some| && some[k] == b;
      assert all[k] == b;
      assert SeatedUpTo(s, t, n)[k] == b;
    }
  }

  /** A due taxi is seated exactly when fewer due taxis precede it than there are free slots. */
  lemma SeatedIffSlotLeft(s: State, t: TerminalId, n: nat)
    requires n < |s.order| && Distinct(s.order) && DueAt(s, s.order[n], t)
    ensures s.order[n] in SeatedList(s, t) <==> |DueUpTo(s, t, n)| < FreeSlots(s, t)
  {
    var b, all, k := s.order[n], DueList(s, t), |DueUpTo(s, t, n)|;
    DueUpToGrows(s, t, n + 1, |s.order|);
    DueUpToMembers(s, t, |s.order|);
    assert DueUpTo(s, t, n + 1)[k] == b;
    assert all[k] == b;
    if k < FreeSlots(s, t) {
      assert SeatedList(s, t)[k] == b;
    }
  }

  lemma SeatedUpToNext(s: State, t: TerminalId, n: nat)
    requires n < |s.order| && Distinct(s.order)
    ensures SeatedUpTo(s, t, n + 1) ==
            SeatedUpTo(s, t, n) + if s.order[n] in SeatedList(s, t) then [s.order[n]] else []
  {
    if DueAt(s, s.order[n], t) {
      SeatedIffSlotLeft(s, t, n);
    } else {
      SeatedUpToMembers(s, t, |s.order|);
      DueUpToMembers(s, t, |s.order|);
      assert forall b :: b in SeatedList(s, t) ==> b in DueList(s, t);
    }
  }

  // ---- the loop, after its first n taxis ----

  function PromotedUpTo(s: State, n: nat): State
    requires n <= |s.order|
  {
    s.(taxis := map b | b in s.taxis :: if b in s.order[..n] then PromotedTaxi(s, b) else s.taxis[b])
  }

  lemma PromotedUpToEnds(s: State)
    requires OrderListsTaxis(s)
    ensures PromotedUpTo(s, 0) == s
    ensures PromotedUpTo(s, |s.order|) == PromoteDueReturns(s)
  {
    assert s.order[..|s.order|] == s.order;
    assert PromotedUpTo(s, 0).taxis == s.taxis;
    assert PromotedUpTo(s, |s.order|).taxis == PromoteDueReturns(s).taxis;
  }

  lemma PromotedUpToKeepsOrder(s: State, n: nat)
    requires OrderListsTaxis(s) && n <= |s.order|
    ensures OrderListsTaxis(PromotedUpTo(s, n))
    ensures PromotedUpTo(s, n) == s.(taxis := PromotedUpTo(s, n).taxis)
  {
  }

  /** The loop's test is the condition of the closed form. */
  lemma DueOrLeftAlone(s: State, b: Badge)
    requires b in s.taxis
    ensures var x := s.taxis[b];
            if x.status == ReturnExempt && Truthy(x.pendingTerminal) && x.expectedArrival.Some?
               && s.now >= x.expectedArrival.value - TERMINAL_ADD_LEAD_MINUTES
            then DueAt(s, b, x.pendingTerminal.value)
            else PromotedTaxi(s, b) == x
  {
  }

  lemma PromotedUpToNext(s: State, n: nat)
    requires OrderListsTaxis(s) && n < |s.order|
    ensures s.order[n] in s.taxis
    ensures PromotedUpTo(s, n).taxis[s.order[n]] == s.taxis[s.order[n]]
    ensures PromotedUpTo(s, n + 1) ==
            PromotedUpTo(s, n).(taxis := PromotedUpTo(s, n).taxis[s.order[n] := PromotedTaxi(s, s.order[n])])
  {
    var b := s.order[n];
    assert s.order[..n + 1] == s.order[..n] + [b];
    assert b !in s.order[..n];
    assert PromotedUpTo(s, n + 1).taxis == PromotedUpTo(s, n).taxis[b := PromotedTaxi(s, b)];
  }

  lemma OccupantMidway(s: State, t: TerminalId, n: nat, b: Badge)
    requires Valid(s) && n <= |s.order|
    ensures b in Occupants(PromotedUpTo(s, n), t) <==> b in Occupants(s, t) || b in SeatedUpTo(s, t, n)
    ensures b in SeatedUpTo(s, t, n) ==> b !in Occupants(s, t)
  {
    hide QueueListsParked, FaresHeld;
    SeatedUpToMembers(s, t, n);
    DueUpToMembers(s, t, |s.order|);
    assert b in SeatedList(s, t) ==> b in DueList(s, t);
    if b in s.taxis && b in s.order[..n] {
      assert PromotedUpTo(s, n).taxis[b] == PromotedTaxi(s, b);
    }
  }

  lemma OccupantsMidway(s: State, t: TerminalId, n: nat)
    requires Valid(s) && n <= |s.order|
    ensures Occupants(PromotedUpTo(s, n), t) == Occupants(s, t) + Elements(SeatedUpTo(s, t, n))
    ensures Occupants(s, t) !! Elements(SeatedUpTo(s, t, n))
  {
    forall b
      ensures b in Occupants(PromotedUpTo(s, n), t) <==> b in Occupants(s, t) || b in SeatedUpTo(s, t, n)
      ensures b in SeatedUpTo(s, t, n) ==> b !in Occupants(s, t)
    {
      OccupantMidway(s, t, n, b);
    }
  }

  /** The running occupancy that the loop recounts for every taxi. */
  lemma OccupancyMidway(s: State, t: TerminalId, n: nat)
    requires Valid(s) && n <= |s.order|
    ensures Occupancy(PromotedUpTo(s, n), t) ==
            Occupancy(s, t) + Min(FreeSlots(s, t), |DueUpTo(s, t, n)|)
  {
    OccupantsMidway(s, t, n);
    SeatedUpToMembers(s, t, n);
    DistinctCardinality(SeatedUpTo(s, t, n));
  }

  /** The loop's test, made against the half-updated store, agrees with the closed form. */
  lemma FullMidwayIffNotSeated(s: State, t: TerminalId, n: nat)
    requires Valid(s) && n < |s.order| && t in s.terminals && DueAt(s, s.order[n], t)
    ensures HasRoom(PromotedUpTo(s, n), t) <==> s.order[n] in SeatedList(s, t)
  {
    OccupancyMidway(s, t, n);
    SeatedIffSlotLeft(s, t, n);
  }

  /** What the closed form makes of a due taxi, in terms of the store half-way through the loop. */
  lemma DueTaxiMidway(s: State, n: nat, t: TerminalId)
    requires Valid(s) && n < |s.order| && DueAt(s, s.order[n], t)
    ensures PromotedTaxi(s, s.order[n]) ==
              var x := s.taxis[s.order[n]];
              if t !in s.terminals then x.(pendingTerminal := None, expectedArrival := None)
              else if HasRoom(PromotedUpTo(s, n), t) then Seat(x, t, s.now)
              else x
  {
    if t in s.terminals {
      FullMidwayIffNotSeated(s, t, n);
    }
  }

  // ---- outcome ----

  /** Slot accounting: every terminal gains exactly min(free slots, due taxis). */
  lemma PromotionFillsSlots(s: State, t: TerminalId)
    requires Valid(s)
    ensures Occupancy(PromoteDueReturns(s), t) == Occupancy(s, t) + Min(FreeSlots(s, t), |DueList(s, t)|)
    ensures t in s.terminals ==>
              Occupancy(PromoteDueReturns(s), t) <= Max(Occupancy(s, t), s.terminals[t].capacity)
  {
    PromotedUpToEnds(s);
    OccupancyMidway(s, t, |s.order|);
  }

  /** Afterwards no terminal has both a free slot and a due taxi, and nobody is due at a terminal
      that does not exist. */
  lemma NoSlotLeftForDueTaxi(s: State, t: TerminalId, b: Badge)
    requires Valid(s) && DueAt(PromoteDueReturns(s), b, t)
    ensures t in s.terminals && !HasRoom(PromoteDueReturns(s), t)
  {
    PromotionFillsSlots(s, t);
    DueUpToMembers(s, t, |s.order|);
    assert s.order[..|s.order|] == s.order;
    assert |DueList(s, t)| <= FreeSlots(s, t) ==> SeatedList(s, t) == DueList(s, t);
    assert b in DueList(s, t) && b !in SeatedList(s, t);
  }

  /** A second run at the same instant changes nothing. */
  lemma PromotionIdempotent(s: State)
    requires Valid(s)
    ensures PromoteDueReturns(PromoteDueReturns(s)) == PromoteDueReturns(s)
  {
    var s1 := PromoteDueReturns(s);
    PromotionKeepsValid(s);
    forall b | b in s1.taxis ensures PromotedTaxi(s1, b) == s1.taxis[b] {
      var pending := s1.taxis[b].pendingTerminal;
      if pending.Some? && DueAt(s1, b, pending.value) {
        NoSlotLeftForDueTaxi(s, pending.value, b);
        assert FreeSlots(s1, pending.value) == 0;
      }
    }
    assert PromoteDueReturns(s1).taxis == s1.taxis;
  }

  function At(s: State, time: real): State {
    s.(now := time)
  }

  lemma DueLaterIff(s: State, t: TerminalId, later: real, b: Badge)
    requires Valid(s) && s.now <= later && t in s.terminals && b in s.taxis
    ensures b in SeatedList(s, t) ==> DueAt(At(s, later), b, t)
    ensures DueAt(At(PromoteDueReturns(s), later), b, t) <==> DueAt(At(s, later), b, t) && b !in SeatedList(s, t)
  {
    DueUpToMembers(s, t, |s.order|);
    assert b in SeatedList(s, t) ==> b in DueList(s, t) && DueAt(s, b, t);
    assert PromoteDueReturns(s).taxis[b] == PromotedTaxi(s, b);
  }

  lemma DueListMembers(s: State, t: TerminalId, b: Badge)
    requires OrderListsTaxis(s)
    ensures b in DueList(s, t) <==> b in s.taxis && DueAt(s, b, t)
    ensures b in SeatedList(s, t) ==> b in DueList(s, t)
  {
    DueUpToMembers(s, t, |s.order|);
    assert s.order[..|s.order|] == s.order;
  }

  /** Whoever is seated now would be due later; whoever is due later was due or pending now. */
  lemma DueLater(s: State, t: TerminalId, later: real)
    requires Valid(s) && s.now <= later && t in s.terminals
    ensures Elements(SeatedList(s, t)) <= Elements(DueList(At(s, later), t))
    ensures Elements(DueList(At(PromoteDueReturns(s), later), t)) ==
            Elements(DueList(At(s, later), t)) - Elements(SeatedList(s, t))
  {
    forall b
      ensures b in SeatedList(s, t) ==> b in DueList(At(s, later), t)
      ensures b in DueList(At(PromoteDueReturns(s), later), t) <==>
              b in DueList(At(s, later), t) && b !in SeatedList(s, t)
    {
      DueListMembers(s, t, b);
      DueListMembers(At(s, later), t, b);
      DueListMembers(At(PromoteDueReturns(s), later), t, b);
      if b in s.taxis {
        DueLaterIff(s, t, later, b);
      }
    }
  }

  lemma DueCountLater(s: State, t: TerminalId, later: real)
    requires Valid(s) && s.now <= later && t in s.terminals
    ensures |DueList(At(PromoteDueReturns(s), later), t)| + |SeatedList(s, t)| == |DueList(At(s, later), t)|
  {
    var n, s1 := |s.order|, PromoteDueReturns(s);
    DueLater(s, t, later);
    SeatedUpToMembers(s, t, n);
    DueUpToMembers(At(s, later), t, n);
    DueUpToMembers(At(s1, later), t, n);
    DistinctCardinality(SeatedList(s, t));
    DistinctCardinality(DueList(At(s, later), t));
    DistinctCardinality(DueList(At(s1, later), t));
  }

  /** Polling independence: promoting now and again later fills every rank exactly as much as
      promoting once later. */
  lemma PollingIndependence(s: State, later: real, t: TerminalId)
    requires Valid(s) && s.now <= later
    ensures Occupancy(PromoteDueReturns(At(PromoteDueReturns(s), later)), t) ==
            Occupancy(PromoteDueReturns(At(s, later)), t)
  {
    hide Valid, DueList;
    var s1 := PromoteDueReturns(s);
    PromotionKeepsValid(s);
    ValidIgnoresTheRest(s, At(s, later));
    ValidIgnoresTheRest(s1, At(s1, later));
    PromotionFillsSlots(s, t);
    PromotionFillsSlots(At(s, later), t);
    PromotionFillsSlots(At(s1, later), t);
    assert Occupants(At(s, later), t) == Occupants(s, t);
    assert Occupants(At(s1, later), t) == Occupants(s1, t);
    if t in s.terminals {
      DueCountLater(s, t, later);
    }
  }
}
