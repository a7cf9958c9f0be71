/** The end of a fare keeps the engine invariant, whatever the driver decides next. */
module EngineFares {
  import opened Domain
  import opened StoreSpec
  import opened Lifecycle
  import opened Buckets
  import opened Engine
  import opened EngineInvariant
  import opened EngineSteps

  // ---- trying the terminals ----

  /** Trying terminals in turn ends at the first one with room, or nowhere with nothing changed;
      every one before it refused because it was full. */
  lemma {:induction false} TriedOutcome(s: State, b: Badge, candidates: seq<TerminalId>, eta: real)
    requires b in s.taxis && s.taxis[b].status == ReturnExempt
    requires forall t :: t in candidates ==> t in s.terminals
    ensures TryTerminals(s, b, candidates, eta).Ok?
    ensures var tried := TryTerminals(s, b, candidates, eta).value;
            && tried.refusals <= |candidates|
            && (forall i :: 0 <= i < tried.refusals ==> !HasRoom(s, candidates[i]))
            && (tried.chosen.None? ==> tried.refusals == |candidates| && tried.store == s)
            && (tried.chosen.Some? ==>
                  && tried.refusals < |candidates| && tried.chosen.value == candidates[tried.refusals]
                  && HasRoom(s, tried.chosen.value)
                  && ReturnToTerminal(s, b, tried.chosen.value, eta) == Ok(tried.store))
  {
    if candidates != [] && !HasRoom(s, candidates[0]) {
      TriedOutcome(s, b, candidates[1..], eta);
      var rest := TryTerminals(s, b, candidates[1..], eta).value;
      assert forall i :: 0 <= i < rest.refusals ==> candidates[i + 1] == candidates[1..][i];
    }
  }

  // ---- what the end of a fare comes to ----

  /** Taxi `b`, and nothing else in the store but its fare's completion and the queue, has moved on
      from its fare. */
  ghost predicate MovedOn(s: State, s': State, b: Badge) {
    && b in s.taxis && b in s'.taxis && s'.taxis == s.taxis[b := s'.taxis[b]]
    && s.taxis[b].status == OnFare && s'.taxis[b].status != OnFare
    && Valid(s') && s'.terminals == s.terminals && s'.rankAgents == s.rankAgents && s'.now == s.now
    && forall id :: id in s.fares ==> id in s'.fares && s'.fares[id].classification == s.fares[id].classification
  }

  /** Completing a fare moves the taxi to the park, or makes it exempt if its fare was. */
  lemma CompletionMovesOn(s: State, b: Badge)
    requires Valid(s) && b in OnFareSet(s)
    ensures CompleteFare(s, b).Ok? && MovedOn(s, CompleteFare(s, b).value, b)
    ensures CompleteFare(s, b).value.taxis[b].pendingTerminal.None?
    ensures CompleteFare(s, b).value.taxis[b].status == if b in OnExemptFareSet(s) then ReturnExempt else InFeederPark
  {
    hide ReturnDeadlineMinutes, OrderListsTaxis, QueueListsParked;
    CompleteKeepsValid(s, b);
    assert Coherent(s.taxis[b]) && HoldsOwnFare(s, b);
  }

  lemma LeavingMovesOn(s: State, s1: State, b: Badge)
    requires MovedOn(s, s1, b) && s1.taxis[b].status == InFeederPark
    ensures LeaveFeederPark(s1, b).Ok? && MovedOn(s, LeaveFeederPark(s1, b).value, b)
    ensures LeaveFeederPark(s1, b).value.taxis[b].status == Offline
    ensures LeaveFeederPark(s1, b).value.taxis[b].pendingTerminal.None?
  {
    LeaveKeepsValid(s1, b);
    assert Coherent(s1.taxis[b]);
  }

  predicate SeatedNow(s: State, s': State, b: Badge, t: TerminalId)
    requires b in s'.taxis
  {
    && s'.taxis[b].status == Called && s'.taxis[b].terminalId == Some(t)
    && CalledTime(s', b) == s.now && s'.taxis[b].pendingTerminal.None?
  }

  predicate PendingAt(s': State, b: Badge, t: TerminalId)
    requires b in s'.taxis
  {
    s'.taxis[b].status == ReturnExempt && s'.taxis[b].pendingTerminal == Some(t)
  }

  lemma AcceptedReturn(s1: State, b: Badge, t: TerminalId, eta: real)
    requires ReturnToTerminal(s1, b, t, eta).Ok? && Coherent(s1.taxis[b])
    ensures var s2 := ReturnToTerminal(s1, b, t, eta).value;
            && b in s2.taxis && s2 == s1.(taxis := s1.taxis[b := s2.taxis[b]]) && HasRoom(s1, t)
            && (SeatedNow(s1, s2, b, t) || PendingAt(s2, b, t))
  {
    hide HasRoom;
  }

  lemma ReturningMovesOn(s: State, s1: State, b: Badge, t: TerminalId, eta: real)
    requires MovedOn(s, s1, b) && s1.taxis[b].status == ReturnExempt && ReturnToTerminal(s1, b, t, eta).Ok?
    ensures var s2 := ReturnToTerminal(s1, b, t, eta).value;
            && MovedOn(s, s2, b) && HasRoom(s1, t)
            && (SeatedNow(s, s2, b, t) || PendingAt(s2, b, t))
  {
    hide HasRoom, OrderListsTaxis, QueueListsParked, FaresHeld;
    assert Coherent(s1.taxis[b]);
    ReturnKeepsValid(s1, b, t, eta);
    AcceptedReturn(s1, b, t, eta);
  }

  // ---- the invariant, part by part ----

  lemma MovedOnFares(s: State, s': State, b: Badge)
    requires Valid(s) && MovedOn(s, s', b)
    ensures b in OnFareSet(s) && OnFareSet(s') == OnFareSet(s) - {b}
    ensures OnExemptFareSet(s') == OnExemptFareSet(s) - {b}
  {
    OneTaxiRewritten(s, s', b);
    forall c | c in s.taxis && c != b ensures CarriesExemptFare(s', c) <==> CarriesExemptFare(s, c) {
      assert HoldsOwnFare(s, c);
    }
  }

  lemma MovedOnOffRanks(s: State, s': State, b: Badge, t: TerminalId)
    requires MovedOn(s, s', b)
    ensures b !in Occupants(s, t)
    ensures Occupants(s', t) == Occupants(s, t) + if OnRank(s'.taxis[b], t) then {b} else {}
  {
    OneTaxiOnRank(s, s', b, t);
  }

  /** The taxi went off the ranks: the index does not change. */
  lemma OffRanksKeepsShadow(sim: Sim, sim': Sim, b: Badge)
    requires MovedOn(sim.store, sim'.store, b) && sim'.store.taxis[b].status != Called
    requires sim'.waiting == sim.waiting && ShadowAgrees(sim) && RanksHold(sim.store)
    ensures ShadowAgrees(sim') && RanksHold(sim'.store)
  {
    var s, s' := sim.store, sim'.store;
    forall r | r in sim'.waiting ensures Indexes(s', sim'.waiting[r], r) {
      MovedOnOffRanks(s, s', b, r);
      IndexUnaffected(s, s', sim.waiting[r], r);
    }
    forall r | r in s'.terminals ensures Occupancy(s', r) <= Slots(s'.terminals[r]) {
      MovedOnOffRanks(s, s', b, r);
      assert Occupants(s', r) == Occupants(s, r);
    }
  }

  lemma OnRankKeepsFit(s: State, s': State, b: Badge, t: TerminalId)
    requires MovedOn(s, s', b) && RanksHold(s) && s'.taxis[b].status == Called
    requires s'.taxis[b].terminalId == Some(t) && HasRoom(s, t)
    ensures RanksHold(s')
  {
    forall r | r in s'.terminals ensures Occupancy(s', r) <= Slots(s'.terminals[r]) {
      MovedOnOffRanks(s, s', b, r);
    }
  }

  /** The taxi went straight onto the rank of `t`, which had room: it is queued for demand there. */
  lemma OnRankKeepsShadow(sim: Sim, sim': Sim, b: Badge, t: TerminalId)
    requires MovedOn(sim.store, sim'.store, b) && ShadowAgrees(sim)
    requires sim'.store.taxis[b].status == Called && sim'.store.taxis[b].terminalId == Some(t)
    requires CalledTime(sim'.store, b) == sim.store.now
    requires t in sim.waiting && sim'.waiting == sim.waiting[t := sim.waiting[t] + [b]]
    ensures ShadowAgrees(sim')
  {
    var s, s' := sim.store, sim'.store;
    forall r | r in sim'.waiting ensures Indexes(s', sim'.waiting[r], r) {
      MovedOnOffRanks(s, s', b, r);
      if r == t {
        IndexPushed(s, s', sim.waiting[t], t, b);
      } else {
        IndexUnaffected(s, s', sim.waiting[r], r);
      }
    }
  }

  /** What is ahead once the fare end of `b` is processed; a pending return has a check filed. */
  function FareEndAhead(ahead: Ahead, b: Badge, pending: bool): Ahead {
    ahead.(fareEnds := ahead.fareEnds - multiset{b},
           checks := if pending then ahead.checks + multiset{b} else ahead.checks)
  }

  lemma OneFewer(xs: set<Badge>, b: Badge)
    requires b in xs
    ensures multiset(xs - {b}) == multiset(xs) - multiset{b} && |xs - {b}| == |xs| - 1
  {
  }

  /** The books: one more completed fare, and one more outcome exactly if the fare was exempt. */
  lemma CompletionBalances(sim: Sim, sim': Sim, ahead: Ahead, cast: Cast, b: Badge, pending: bool)
    requires FaresScheduled(sim, ahead) && BooksBalance(sim, ahead, cast) && b in OnFareSet(sim.store)
    requires OnFareSet(sim'.store) == OnFareSet(sim.store) - {b}
    requires OnExemptFareSet(sim'.store) == OnExemptFareSet(sim.store) - {b}
    requires sim'.stats.unmet == sim.stats.unmet && sim'.stats.faresByClass == sim.stats.faresByClass
    requires sim'.stats.completed == sim.stats.completed + 1
    requires ExemptOutcomes(sim'.stats) ==
             ExemptOutcomes(sim.stats) + if b in OnExemptFareSet(sim.store) then 1 else 0
    requires |sim'.stats.notReturnedByDestination| == |sim'.stats.notReturnedByReason|
    ensures FaresScheduled(sim', FareEndAhead(ahead, b, pending))
    ensures BooksBalance(sim', FareEndAhead(ahead, b, pending), cast)
  {
    OneFewer(OnFareSet(sim.store), b);
    if b in OnExemptFareSet(sim.store) {
      OneFewer(OnExemptFareSet(sim.store), b);
    } else {
      assert OnExemptFareSet(sim'.store) == OnExemptFareSet(sim.store);
    }
  }

  lemma MovedOnKeepsAccounts(sim: Sim, sim': Sim, ahead: Ahead, b: Badge, pending: bool)
    requires MovedOn(sim.store, sim'.store, b) && EveryoneAccounted(sim, ahead)
    requires sim'.waiting.Keys == sim.waiting.Keys && sim.finished <= sim'.finished
    requires Accounted(sim', FareEndAhead(ahead, b, pending), b)
    ensures EveryoneAccounted(sim', FareEndAhead(ahead, b, pending))
  {
    forall c | c in sim'.store.taxis ensures Accounted(sim', FareEndAhead(ahead, b, pending), c) {
      assert c != b ==> Accounted(sim, ahead, c);
    }
  }

  /** The parts of the invariant that a fare's end leaves alone. */
  ghost predicate RestKept(sim: Sim, sim': Sim) {
    && InDay(sim') && sim'.waiting.Keys == sim.waiting.Keys && sim'.retries == sim.retries
    && sim'.stats.snapshots == sim.stats.snapshots && sim.finished <= sim'.finished
  }

  lemma MovedOnKeepsRest(sim: Sim, sim': Sim, ahead: Ahead, cast: Cast, b: Badge, pending: bool)
    requires AsSetUp(sim, cast) && SnapshotsFit(sim, cast) && RetriesBounded(sim, ahead)
    requires MovedOn(sim.store, sim'.store, b) && RestKept(sim, sim')
    ensures AsSetUp(sim', cast) && SnapshotsFit(sim', cast)
    ensures RetriesBounded(sim', FareEndAhead(ahead, b, pending))
  {
  }

  // ---- the four endings ----

  function Completed(sim: Sim, s: State): Sim {
    sim.(store := s, stats := sim.stats.(completed := sim.stats.completed + 1))
  }

  /** A standard fare: back to the park, or home if the shift is over. */
  lemma StandardEndKeepsInv(sim: Sim, sim': Sim, ahead: Ahead, cast: Cast, b: Badge, s': State)
    requires Inv(sim, ahead, cast) && MovedOn(sim.store, s', b) && b !in OnExemptFareSet(sim.store)
    requires s'.taxis[b].pendingTerminal.None?
    requires (s'.taxis[b].status == InFeederPark && b in ahead.ends && sim' == Completed(sim, s'))
          || (s'.taxis[b].status == Offline && sim' == Completed(sim, s').(finished := sim.finished + {b}))
    ensures Inv(sim', FareEndAhead(ahead, b, false), cast)
  {
    MovedOnFares(sim.store, s', b);
    OffRanksKeepsShadow(sim, sim', b);
    CompletionBalances(sim, sim', ahead, cast, b, false);
    MovedOnKeepsAccounts(sim, sim', ahead, b, false);
    MovedOnKeepsRest(sim, sim', ahead, cast, b, false);
  }

  lemma GivingUpCounts(sim: Sim, b: Badge, destination: string, reason: Reason)
    requires reason != NeverFreedUp
    ensures ExemptOutcomes(GiveUp(sim, b, destination, reason).stats) == ExemptOutcomes(sim.stats) + 1
    ensures |GiveUp(sim, b, destination, reason).stats.notReturnedByReason| == |sim.stats.notReturnedByReason| + 1
    ensures |GiveUp(sim, b, destination, reason).stats.notReturnedByDestination| ==
            |sim.stats.notReturnedByDestination| + 1
  {
    CountOne(sim.stats.notReturnedByReason, reason, NeverFreedUp);
    CountOne(sim.stats.notReturnedByDestination, destination, destination);
  }

  /** An exempt fare whose driver does not come back. */
  lemma GiveUpKeepsInv(sim: Sim, sim': Sim, ahead: Ahead, cast: Cast, b: Badge, s': State, refusals: nat,
                       destination: string, reason: Reason)
    requires Inv(sim, ahead, cast) && MovedOn(sim.store, s', b) && b in OnExemptFareSet(sim.store)
    requires s'.taxis[b].status == ReturnExempt && s'.taxis[b].pendingTerminal.None? && reason != NeverFreedUp
    requires var sim1 := Completed(sim, s');
             sim' == GiveUp(sim1.(stats := sim1.stats.(fullRejections := sim1.stats.fullRejections + refusals)),
                            b, destination, reason)
    ensures Inv(sim', FareEndAhead(ahead, b, false), cast)
  {
    var sim1 := Completed(sim, s');
    var sim2 := sim1.(stats := sim1.stats.(fullRejections := sim1.stats.fullRejections + refusals));
    GivingUpCounts(sim2, b, destination, reason);
    MovedOnFares(sim.store, s', b);
    OffRanksKeepsShadow(sim, sim', b);
    CompletionBalances(sim, sim', ahead, cast, b, false);
    MovedOnKeepsAccounts(sim, sim', ahead, b, false);
    MovedOnKeepsRest(sim, sim', ahead, cast, b, false);
  }

  /** What the counters and the index look like after an accepted return. */
  ghost predicate ReturnBooked(sim: Sim, sim': Sim, s': State, b: Badge, t: TerminalId)
    requires b in s'.taxis
  {
    && sim'.store == s' && RestKept(sim, sim') && t in sim.waiting
    && sim'.waiting == (if s'.taxis[b].status == Called then sim.waiting[t := sim.waiting[t] + [b]] else sim.waiting)
    && sim'.stats.unmet == sim.stats.unmet && sim'.stats.faresByClass == sim.stats.faresByClass
    && sim'.stats.completed == sim.stats.completed + 1 && sim'.stats.returned == sim.stats.returned + 1
    && sim'.stats.notReturnedByReason == sim.stats.notReturnedByReason
    && sim'.stats.notReturnedByDestination == sim.stats.notReturnedByDestination
  }

  /** An exempt fare whose driver returns: seated at once, or pending with a check filed. */
  lemma AcceptedReturnKeepsInv(sim: Sim, sim': Sim, ahead: Ahead, cast: Cast, b: Badge, s': State, t: TerminalId)
    requires Inv(sim, ahead, cast) && MovedOn(sim.store, s', b) && b in OnExemptFareSet(sim.store)
    requires HasRoom(sim.store, t) && ReturnBooked(sim, sim', s', b, t)
    requires SeatedNow(sim.store, s', b, t) || PendingAt(s', b, t)
    ensures Inv(sim', FareEndAhead(ahead, b, s'.taxis[b].status == ReturnExempt), cast)
  {
    var pending := s'.taxis[b].status == ReturnExempt;
    MovedOnFares(sim.store, s', b);
    if pending {
      OffRanksKeepsShadow(sim, sim', b);
    } else {
      OnRankKeepsShadow(sim, sim', b, t);
      OnRankKeepsFit(sim.store, s', b, t);
    }
    CompletionBalances(sim, sim', ahead, cast, b, pending);
    MovedOnKeepsAccounts(sim, sim', ahead, b, pending);
    MovedOnKeepsRest(sim, sim', ahead, cast, b, pending);
  }

  // ---- the whole event ----

  /** After the fare end of `e` the invariant holds again, fare ends are only consumed, and a check is
      filed exactly when the taxi is left with a pending return. */
  ghost predicate FareEndKept(sim: Sim, sim': Sim, ahead: Ahead, cast: Cast, e: FareEnd, eta: real)
    requires InDay(sim)
  {
    var pending := StillPending(sim'.store, e.badge);
    && Inv(sim', FareEndAhead(ahead, e.badge, pending), cast)
    && sim'.minute == sim.minute && sim'.fareEnds == sim.fareEnds && sim'.store.now == sim.store.now
    && sim'.checks == if pending then File(sim.checks, DueMinute(sim.minute, |sim.checks|, eta), e.badge) else sim.checks
  }

  lemma RefusedEverywhere(sim: Sim, ahead: Ahead, cast: Cast, e: FareEnd, s1: State, draw: ReturnDraw, tried: Tried)
    requires Inv(sim, ahead, cast) && MovedOn(sim.store, s1, e.badge) && e.badge in OnExemptFareSet(sim.store)
    requires s1.taxis[e.badge].status == ReturnExempt && s1.taxis[e.badge].pendingTerminal.None?
    requires TryTerminals(s1, e.badge, draw.candidates, draw.eta) == Ok(tried)
    requires tried.chosen.None? && tried.store == s1
    ensures ReturnStep(Completed(sim, s1), e, draw).Ok?
    ensures FareEndKept(sim, ReturnStep(Completed(sim, s1), e, draw).value, ahead, cast, e, draw.eta)
  {
    hide Valid, ShadowAgrees, FaresScheduled, EveryoneAccounted, RanksHold, SnapshotsFit, BooksBalance, RetriesBounded,
         OnExemptFareSet, TryTerminals;
    var sim' := ReturnStep(Completed(sim, s1), e, draw).value;
    GiveUpKeepsInv(sim, sim', ahead, cast, e.badge, s1, tried.refusals, e.fare.destination, AllTerminalsFull);
  }

  lemma SeatedReturnKept(sim: Sim, ahead: Ahead, cast: Cast, e: FareEnd, s1: State, eta: real, tried: Tried, t: TerminalId)
    requires Inv(sim, ahead, cast) && MovedOn(sim.store, tried.store, e.badge) && e.badge in OnExemptFareSet(sim.store)
    requires HasRoom(sim.store, t) && SeatedNow(sim.store, tried.store, e.badge, t)
    ensures FareEndKept(sim, QueueForDemand(Accepted(Completed(sim, s1), tried), t, e.badge), ahead, cast, e, eta)
  {
    hide Valid, ShadowAgrees, FaresScheduled, EveryoneAccounted, RanksHold, SnapshotsFit, BooksBalance, RetriesBounded,
         OnExemptFareSet, Occupancy;
    var sim' := QueueForDemand(Accepted(Completed(sim, s1), tried), t, e.badge);
    AcceptedReturnKeepsInv(sim, sim', ahead, cast, e.badge, tried.store, t);
  }

  lemma PendingReturnKept(sim: Sim, ahead: Ahead, cast: Cast, b: Badge, s1: State, due: nat, tried: Tried, t: TerminalId)
    requires Inv(sim, ahead, cast) && MovedOn(sim.store, tried.store, b) && b in OnExemptFareSet(sim.store)
    requires HasRoom(sim.store, t) && PendingAt(tried.store, b, t) && due < |sim.checks|
    ensures var sim1 := Accepted(Completed(sim, s1), tried);
            Inv(sim1.(checks := File(sim.checks, due, b)), FareEndAhead(ahead, b, true), cast)
  {
    hide Valid, ShadowAgrees, FaresScheduled, EveryoneAccounted, RanksHold, SnapshotsFit, BooksBalance, RetriesBounded,
         OnExemptFareSet, Occupancy;
    var sim' := Accepted(Completed(sim, s1), tried).(checks := File(sim.checks, due, b));
    assert ReturnBooked(sim, sim', tried.store, b, t);
    AcceptedReturnKeepsInv(sim, sim', ahead, cast, b, tried.store, t);
  }

  lemma CheckFiledKept(sim: Sim, ahead: Ahead, cast: Cast, e: FareEnd, s1: State, eta: real, tried: Tried, t: TerminalId)
    requires Inv(sim, ahead, cast) && MovedOn(sim.store, tried.store, e.badge) && e.badge in OnExemptFareSet(sim.store)
    requires HasRoom(sim.store, t) && PendingAt(tried.store, e.badge, t)
    ensures FareEndKept(sim, FileCheck(Accepted(Completed(sim, s1), tried), e.badge, eta), ahead, cast, e, eta)
  {
    hide Valid, ShadowAgrees, FaresScheduled, EveryoneAccounted, RanksHold, SnapshotsFit, BooksBalance, RetriesBounded,
         OnExemptFareSet, Occupancy, DueMinute;
    var due := DueMinute(sim.minute, |sim.checks|, eta);
    PendingReturnKept(sim, ahead, cast, e.badge, s1, due, tried, t);
    assert t in cast.terminals && t != "";
  }

  lemma AcceptedSomewhere(sim: Sim, ahead: Ahead, cast: Cast, e: FareEnd, s1: State, draw: ReturnDraw, tried: Tried,
                          t: TerminalId)
    requires Inv(sim, ahead, cast) && MovedOn(sim.store, tried.store, e.badge) && e.badge in OnExemptFareSet(sim.store)
    requires TryTerminals(s1, e.badge, draw.candidates, draw.eta) == Ok(tried) && tried.chosen == Some(t)
    requires HasRoom(sim.store, t)
    requires SeatedNow(sim.store, tried.store, e.badge, t) || PendingAt(tried.store, e.badge, t)
    ensures ReturnStep(Completed(sim, s1), e, draw).Ok?
    ensures FareEndKept(sim, ReturnStep(Completed(sim, s1), e, draw).value, ahead, cast, e, draw.eta)
  {
    hide Valid, ShadowAgrees, FaresScheduled, EveryoneAccounted, RanksHold, SnapshotsFit, BooksBalance, RetriesBounded,
         OnExemptFareSet, HasRoom, TryTerminals, FareEndKept;
    if SeatedNow(sim.store, tried.store, e.badge, t) {
      SeatedReturnKept(sim, ahead, cast, e, s1, draw.eta, tried, t);
    } else {
      CheckFiledKept(sim, ahead, cast, e, s1, draw.eta, tried, t);
    }
  }

  lemma ReturnStepKeepsInv(sim: Sim, ahead: Ahead, cast: Cast, e: FareEnd, s1: State, draw: ReturnDraw)
    requires Inv(sim, ahead, cast) && MovedOn(sim.store, s1, e.badge) && e.badge in OnExemptFareSet(sim.store)
    requires s1.taxis[e.badge].status == ReturnExempt && s1.taxis[e.badge].pendingTerminal.None?
    requires forall t :: t in draw.candidates ==> t in cast.terminals
    ensures ReturnStep(Completed(sim, s1), e, draw).Ok?
    ensures FareEndKept(sim, ReturnStep(Completed(sim, s1), e, draw).value, ahead, cast, e, draw.eta)
  {
    hide Valid, ShadowAgrees, FaresScheduled, EveryoneAccounted, RanksHold, SnapshotsFit, BooksBalance, RetriesBounded,
         OnExemptFareSet, FareEndKept;
    var b := e.badge;
    TriedOutcome(s1, b, draw.candidates, draw.eta);
    var tried := TryTerminals(s1, b, draw.candidates, draw.eta).value;
    if tried.chosen.None? {
      RefusedEverywhere(sim, ahead, cast, e, s1, draw, tried);
    } else {
      var t := tried.chosen.value;
      ReturningMovesOn(sim.store, s1, b, t, draw.eta);
      MovedOnOffRanks(sim.store, s1, b, t);
      assert Occupants(s1, t) == Occupants(sim.store, t);
      AcceptedSomewhere(sim, ahead, cast, e, s1, draw, tried, t);
    }
  }

  lemma StandardFareEnd(sim: Sim, ahead: Ahead, cast: Cast, e: FareEnd, shiftEnd: int, s1: State, eta: real)
    returns (sim': Sim)
    requires Inv(sim, ahead, cast) && MovedOn(sim.store, s1, e.badge) && e.badge !in OnExemptFareSet(sim.store)
    requires s1.taxis[e.badge].status == InFeederPark && s1.taxis[e.badge].pendingTerminal.None?
    requires sim.minute < shiftEnd ==> e.badge in ahead.ends
    ensures forall central, draw :: AfterFare(Completed(sim, s1), e, shiftEnd, central, draw) == Ok(sim')
    ensures FareEndKept(sim, sim', ahead, cast, e, eta)
  {
    hide Valid, ShadowAgrees, FaresScheduled, EveryoneAccounted, RanksHold, SnapshotsFit, BooksBalance, RetriesBounded,
         OnExemptFareSet;
    if shiftEnd <= sim.minute {
      LeavingMovesOn(sim.store, s1, e.badge);
      var s2 := LeaveFeederPark(s1, e.badge).value;
      sim' := Completed(sim, s2).(finished := sim.finished + {e.badge});
      StandardEndKeepsInv(sim, sim', ahead, cast, e.badge, s2);
    } else {
      sim' := Completed(sim, s1);
      StandardEndKeepsInv(sim, sim', ahead, cast, e.badge, s1);
    }
  }

  lemma DeclinedFareEnd(sim: Sim, ahead: Ahead, cast: Cast, e: FareEnd, s1: State, reason: Reason, eta: real)
    requires Inv(sim, ahead, cast) && MovedOn(sim.store, s1, e.badge) && e.badge in OnExemptFareSet(sim.store)
    requires s1.taxis[e.badge].status == ReturnExempt && s1.taxis[e.badge].pendingTerminal.None?
    requires reason != NeverFreedUp
    ensures FareEndKept(sim, GiveUp(Completed(sim, s1), e.badge, e.fare.destination, reason), ahead, cast, e, eta)
  {
    hide Valid, ShadowAgrees, FaresScheduled, EveryoneAccounted, RanksHold, SnapshotsFit, BooksBalance, RetriesBounded,
         OnExemptFareSet;
    var sim' := GiveUp(Completed(sim, s1), e.badge, e.fare.destination, reason);
    GiveUpKeepsInv(sim, sim', ahead, cast, e.badge, s1, 0, e.fare.destination, reason);
  }

  /** After an exempt fare the driver declines, or tries the terminals. */
  lemma AfterExemptFare(sim1: Sim, e: FareEnd, shiftEnd: int, central: set<string>, draw: ReturnDraw)
    requires InDay(sim1) && e.badge in sim1.store.taxis && sim1.store.taxis[e.badge].status == ReturnExempt
    ensures var shiftOver := shiftEnd - sim1.minute <= 0;
            AfterFare(sim1, e, shiftEnd, central, draw) ==
              if shiftOver || draw.declines then
                Ok(GiveUp(sim1, e.badge, e.fare.destination, DeclineReason(shiftOver, e.fare.destination, central)))
              else ReturnStep(sim1, e, draw)
  {
  }

  lemma ExemptFareEnd(sim: Sim, ahead: Ahead, cast: Cast, e: FareEnd, shiftEnd: int, central: set<string>, s1: State,
                      draw: ReturnDraw)
    requires Inv(sim, ahead, cast) && MovedOn(sim.store, s1, e.badge) && e.badge in OnExemptFareSet(sim.store)
    requires s1.taxis[e.badge].status == ReturnExempt && s1.taxis[e.badge].pendingTerminal.None?
    requires forall t :: t in draw.candidates ==> t in cast.terminals
    ensures AfterFare(Completed(sim, s1), e, shiftEnd, central, draw).Ok?
    ensures FareEndKept(sim, AfterFare(Completed(sim, s1), e, shiftEnd, central, draw).value, ahead, cast, e, draw.eta)
  {
    var shiftOver := shiftEnd - sim.minute <= 0;
    AfterExemptFare(Completed(sim, s1), e, shiftEnd, central, draw);
    if shiftOver || draw.declines {
      DeclinedFareEnd(sim, ahead, cast, e, s1, DeclineReason(shiftOver, e.fare.destination, central), draw.eta);
    } else {
      ReturnStepKeepsInv(sim, ahead, cast, e, s1, draw);
    }
  }

  /** A fare finishes: exactly one outcome, and the invariant holds again. */
  lemma CompleteKeepsInv(sim: Sim, ahead: Ahead, cast: Cast, e: FareEnd, shiftEnd: int, central: set<string>,
                         draw: ReturnDraw)
    requires Inv(sim, ahead, cast) && e.badge in ahead.fareEnds
    requires forall t :: t in draw.candidates ==> t in cast.terminals
    requires sim.minute < shiftEnd ==> e.badge in ahead.ends
    ensures CompleteStep(sim, e, shiftEnd, central, draw).Ok?
    ensures FareEndKept(sim, CompleteStep(sim, e, shiftEnd, central, draw).value, ahead, cast, e, draw.eta)
  {
    var s, b := sim.store, e.badge;
    assert b in OnFareSet(s);
    CompletionMovesOn(s, b);
    var s1 := CompleteFare(s, b).value;
    assert CompleteStep(sim, e, shiftEnd, central, draw) == AfterFare(Completed(sim, s1), e, shiftEnd, central, draw);
    if b !in OnExemptFareSet(s) {
      var sim' := StandardFareEnd(sim, ahead, cast, e, shiftEnd, s1, draw.eta);
    } else {
      ExemptFareEnd(sim, ahead, cast, e, shiftEnd, central, s1, draw);
    }
  }
}
