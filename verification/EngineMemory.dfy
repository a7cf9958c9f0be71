/** The engine's note of each driver's last destination agrees with the store, so the fallback for a
    missing note is never used. */
module EngineMemory {
  import opened Domain
  import opened StoreSpec
  import opened Lifecycle
  import opened Engine
  import opened EngineInvariant
  import opened EngineSteps
  import opened EngineFares

  /** On a fare the note is the fare's destination; afterwards it is what the exemption is for. */
  ghost predicate Noted(s: State, notes: map<Badge, string>, b: Badge)
    requires b in s.taxis
  {
    var x := s.taxis[b];
    && (x.status == OnFare && x.currentFare.Some? && x.currentFare.value in s.fares ==>
          b in notes && notes[b] == s.fares[x.currentFare.value].destination)
    && (x.status == ReturnExempt ==> b in notes && x.exemptionDestination == Some(notes[b]))
  }

  ghost predicate NotesAgree(s: State, notes: map<Badge, string>) {
    forall b :: b in s.taxis ==> Noted(s, notes, b)
  }

  /** The engine invariant, with the notes. */
  ghost predicate Sound(sim: Sim, ahead: Ahead, cast: Cast) {
    Inv(sim, ahead, cast) && NotesAgree(sim.store, sim.lastDestination)
  }

  // ---- store steps ----

  lemma JoinKeepsNotes(s: State, notes: map<Badge, string>, b: Badge)
    requires NotesAgree(s, notes) && JoinFeederPark(s, b).Ok?
    ensures NotesAgree(JoinFeederPark(s, b).value, notes)
  {
    forall c | c in s.taxis ensures Noted(JoinFeederPark(s, b).value, notes, c) {
      assert Noted(s, notes, c);
    }
  }

  lemma LeaveKeepsNotes(s: State, notes: map<Badge, string>, b: Badge)
    requires NotesAgree(s, notes) && LeaveFeederPark(s, b).Ok?
    ensures NotesAgree(LeaveFeederPark(s, b).value, notes)
  {
    forall c | c in s.taxis ensures Noted(LeaveFeederPark(s, b).value, notes, c) {
      assert Noted(s, notes, c);
    }
  }

  lemma CompletionKeepsNotes(s: State, notes: map<Badge, string>, b: Badge)
    requires Valid(s) && NotesAgree(s, notes) && CompleteFare(s, b).Ok?
    ensures NotesAgree(CompleteFare(s, b).value, notes)
  {
    forall c | c in s.taxis ensures Noted(CompleteFare(s, b).value, notes, c) {
      assert Noted(s, notes, c) && HoldsOwnFare(s, c);
    }
  }

  lemma ReturnKeepsNotes(s: State, notes: map<Badge, string>, b: Badge, t: TerminalId, eta: real)
    requires NotesAgree(s, notes) && ReturnToTerminal(s, b, t, eta).Ok?
    ensures NotesAgree(ReturnToTerminal(s, b, t, eta).value, notes)
  {
    forall c | c in s.taxis ensures Noted(ReturnToTerminal(s, b, t, eta).value, notes, c) {
      assert Noted(s, notes, c);
    }
  }

  lemma PromotionKeepsNotes(s: State, notes: map<Badge, string>)
    requires NotesAgree(s, notes)
    ensures NotesAgree(PromoteDueReturns(s), notes)
  {
    forall c | c in s.taxis ensures Noted(PromoteDueReturns(s), notes, c) {
      assert Noted(s, notes, c);
      assert PromoteDueReturns(s).taxis[c] == PromotedTaxi(s, c);
    }
  }

  lemma {:induction false} TryingKeepsNotes(s: State, notes: map<Badge, string>, b: Badge, candidates: seq<TerminalId>,
                                            eta: real)
    requires NotesAgree(s, notes) && TryTerminals(s, b, candidates, eta).Ok?
    ensures NotesAgree(TryTerminals(s, b, candidates, eta).value.store, notes)
  {
    if candidates != [] {
      if ReturnToTerminal(s, b, candidates[0], eta).Ok? {
        ReturnKeepsNotes(s, notes, b, candidates[0], eta);
      } else {
        TryingKeepsNotes(s, notes, b, candidates[1..], eta);
      }
    }
  }

  // ---- events ----

  lemma JoinKeepsSound(sim: Sim, ahead: Ahead, cast: Cast, b: Badge)
    requires Sound(sim, ahead, cast) && b in cast.drivers && b in ahead.ends
    ensures JoinStep(sim, b).Ok? && JoinStep(sim, b).value.store.now == sim.store.now
    ensures Sound(JoinStep(sim, b).value, ahead.(starts := ahead.starts - multiset{b}), cast)
  {
    hide Inv, NotesAgree;
    JoinKeepsInv(sim, ahead, cast, b);
    if JoinFeederPark(sim.store, b).Ok? {
      JoinKeepsNotes(sim.store, sim.lastDestination, b);
    }
  }

  lemma EndShiftKeepsSound(sim: Sim, ahead: Ahead, cast: Cast, b: Badge)
    requires Sound(sim, ahead, cast)
    ensures EndShiftStep(sim, b).Ok? && EndShiftStep(sim, b).value.store.now == sim.store.now
    ensures Sound(EndShiftStep(sim, b).value, ahead.(ends := ahead.ends - multiset{b}), cast)
  {
    hide Inv, NotesAgree;
    EndShiftKeepsInv(sim, ahead, cast, b);
    if EndShiftStep(sim, b).value != sim {
      LeaveKeepsNotes(sim.store, sim.lastDestination, b);
    }
  }

  lemma TickKeepsSound(sim: Sim, ahead: Ahead, cast: Cast, m: nat, now: real)
    requires Sound(sim, ahead, cast) && m < |sim.checks| && sim.store.now <= now
    ensures Sound(Tick(sim, m, now), ahead, cast)
  {
    TickKeepsInv(sim, ahead, cast, m, now);
    forall b | b in sim.store.taxis ensures Noted(Tick(sim, m, now).store, sim.lastDestination, b) {
      assert Noted(sim.store, sim.lastDestination, b);
    }
  }

  lemma SnapshotKeepsSound(sim: Sim, ahead: Ahead, cast: Cast)
    requires Sound(sim, ahead, cast)
    ensures Sound(TakeSnapshot(sim), ahead, cast)
  {
    SnapshotKeepsInv(sim, ahead, cast);
  }

  lemma SweepKeepsSound(sim: Sim, ahead: Ahead, cast: Cast)
    requires Sound(sim, ahead, cast)
    ensures Sound(SweepStep(sim), ahead, cast)
  {
    SweepKeepsInv(sim, ahead, cast);
    PromotionKeepsNotes(sim.store, sim.lastDestination);
  }

  lemma RetryKeepsSound(sim: Sim, ahead: Ahead, cast: Cast, b: Badge)
    requires Sound(sim, ahead, cast) && b in ahead.checks
    ensures Sound(RetryStep(sim, b), ahead.(checks := ahead.checks - multiset{b} + Refiled(sim, b)), cast)
  {
    RetryKeepsInv(sim, ahead, cast, b);
  }

  lemma ServingKeepsNotes(sim: Sim, sim': Sim, t: TerminalId, b: Badge, fare: SimulatedFare, leg: real)
    requires InDay(sim) && Valid(sim.store) && NotesAgree(sim.store, sim.lastDestination)
    requires Served(sim, sim', t, b, fare, leg)
    ensures NotesAgree(sim'.store, sim'.lastDestination)
  {
    forall c | c in sim'.store.taxis ensures Noted(sim'.store, sim'.lastDestination, c) {
      assert Noted(sim.store, sim.lastDestination, c) && HoldsOwnFare(sim.store, c);
    }
  }

  lemma ServedDemandKeepsSound(sim: Sim, ahead: Ahead, cast: Cast, t: TerminalId, fare: SimulatedFare, leg: real)
    requires Sound(sim, ahead, cast) && t in ahead.demand && t in cast.terminals && LabelAgrees(fare)
    requires Caller(sim, t).Some?
    ensures DemandStep(sim, t, fare, leg).Ok?
    ensures Served(sim, DemandStep(sim, t, fare, leg).value, t, Caller(sim, t).value, fare, leg)
    ensures Sound(DemandStep(sim, t, fare, leg).value, ServedAhead(ahead, t, Caller(sim, t).value), cast)
  {
    ServedDemandKeepsInv(sim, ahead, cast, t, fare, leg);
    ServingKeepsNotes(sim, DemandStep(sim, t, fare, leg).value, t, Caller(sim, t).value, fare, leg);
  }

  lemma UnmetDemandKeepsSound(sim: Sim, ahead: Ahead, cast: Cast, t: TerminalId, fare: SimulatedFare, leg: real)
    requires Sound(sim, ahead, cast) && t in ahead.demand && t in cast.terminals
    requires Caller(sim, t).None?
    ensures DemandStep(sim, t, fare, leg) == Ok(Unmet(sim))
    ensures Sound(Unmet(sim), ahead.(demand := ahead.demand - multiset{t}), cast)
  {
    UnmetDemandKeepsInv(sim, ahead, cast, t, fare, leg);
  }

  lemma NextMoveKeepsNotes(sim: Sim, e: FareEnd, shiftEnd: int, central: set<string>, draw: ReturnDraw)
    requires InDay(sim) && e.badge in sim.store.taxis && NotesAgree(sim.store, sim.lastDestination)
    requires AfterFare(sim, e, shiftEnd, central, draw).Ok?
    ensures var sim' := AfterFare(sim, e, shiftEnd, central, draw).value;
            NotesAgree(sim'.store, sim'.lastDestination)
  {
    var x, shiftOver := sim.store.taxis[e.badge], shiftEnd - sim.minute <= 0;
    if x.status == InFeederPark && shiftOver {
      LeaveKeepsNotes(sim.store, sim.lastDestination, e.badge);
    } else if x.status == ReturnExempt && !shiftOver && !draw.declines {
      TryingKeepsNotes(sim.store, sim.lastDestination, e.badge, draw.candidates, draw.eta);
    }
  }

  lemma CompleteKeepsSound(sim: Sim, ahead: Ahead, cast: Cast, e: FareEnd, shiftEnd: int, central: set<string>,
                           draw: ReturnDraw)
    requires Sound(sim, ahead, cast) && e.badge in ahead.fareEnds
    requires forall t :: t in draw.candidates ==> t in cast.terminals
    requires sim.minute < shiftEnd ==> e.badge in ahead.ends
    ensures CompleteStep(sim, e, shiftEnd, central, draw).Ok?
    ensures FareEndKept(sim, CompleteStep(sim, e, shiftEnd, central, draw).value, ahead, cast, e, draw.eta)
    ensures NotesAgree(CompleteStep(sim, e, shiftEnd, central, draw).value.store,
                       CompleteStep(sim, e, shiftEnd, central, draw).value.lastDestination)
  {
    CompleteKeepsInv(sim, ahead, cast, e, shiftEnd, central, draw);
    assert e.badge in OnFareSet(sim.store);
    CompletionMovesOn(sim.store, e.badge);
    CompletionKeepsNotes(sim.store, sim.lastDestination, e.badge);
    var sim1 := Completed(sim, CompleteFare(sim.store, e.badge).value);
    NextMoveKeepsNotes(sim1, e, shiftEnd, central, draw);
  }

  // ---- what it is good for ----

  /** A driver given up on is counted under the destination of the exemption in force: the note is
      always there, and the fallback never used. */
  lemma GivenUpByDestination(sim: Sim, ahead: Ahead, cast: Cast, b: Badge)
    requires Sound(sim, ahead, cast) && StillPending(sim.store, b)
    requires RetryCount(sim.retries, b) >= MAX_RETURN_RETRIES
    ensures sim.store.taxis[b].exemptionDestination.Some?
    ensures RetryStep(sim, b).stats.notReturnedByDestination ==
            sim.stats.notReturnedByDestination + multiset{sim.store.taxis[b].exemptionDestination.value}
  {
    assert Noted(sim.store, sim.lastDestination, b);
  }
}
