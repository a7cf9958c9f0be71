/** What the engine keeps true between events: the shadow index agrees with the store, every taxi on
    a fare is scheduled, every idle driver is accounted for, ranks fit, and the books balance. */
module EngineInvariant {
  import opened Domain
  import opened Lists
  import opened StoreSpec
  import opened Lifecycle
  import opened Engine

  /** What is still filed ahead of the engine in each kind of bucket. */
  datatype Ahead = Ahead(
    starts: multiset<Badge>,
    demand: multiset<TerminalId>,
    fareEnds: multiset<Badge>,
    checks: multiset<Badge>,
    ends: multiset<Badge>)

  /** The fixed cast of a simulation. */
  datatype Cast = Cast(drivers: set<Badge>, terminals: map<TerminalId, TerminalState>, totalDemand: nat)

  // ---- the store is the one that was set up ----

  ghost predicate AsSetUp(sim: Sim, cast: Cast) {
    && InDay(sim)
    && Valid(sim.store)
    && sim.store.taxis.Keys == cast.drivers
    && sim.store.terminals == cast.terminals
    && sim.waiting.Keys == cast.terminals.Keys
    && (forall t :: t in cast.terminals ==>
          t != "" && AgentOf(t) in sim.store.rankAgents)
  }

  // ---- the shadow index ----

  function CalledTime(s: State, b: Badge): real {
    if b in s.taxis && s.taxis[b].calledAt.Some? then s.taxis[b].calledAt.value else s.now
  }

  /** The deque `line` holds exactly the taxis on the rank of `t`, once each, in the order they
      were called, none called after now. */
  ghost predicate Indexes(s: State, line: seq<Badge>, t: TerminalId) {
    && Distinct(line)
    && Elements(line) == Occupants(s, t)
    && (forall b :: b in line ==> CalledTime(s, b) <= s.now)
    && forall i, j :: 0 <= i < j < |line| ==> CalledTime(s, line[i]) <= CalledTime(s, line[j])
  }

  ghost predicate ShadowAgrees(sim: Sim) {
    && (forall t :: t in sim.waiting ==> Indexes(sim.store, sim.waiting[t], t))
    && forall b :: b in sim.store.taxis && sim.store.taxis[b].status == Called ==>
         sim.store.taxis[b].terminalId.Some? && sim.store.taxis[b].terminalId.value in sim.waiting
  }

  // ---- the schedule ----

  ghost predicate FaresScheduled(sim: Sim, ahead: Ahead) {
    ahead.fareEnds == multiset(OnFareSet(sim.store))
  }

  /** Where a driver's next event is, when the taxi is idle. */
  ghost predicate Accounted(sim: Sim, ahead: Ahead, b: Badge)
    requires b in sim.store.taxis
  {
    var x := sim.store.taxis[b];
    && (x.status == Offline ==> b in sim.finished || b in ahead.starts)
    && (x.status == InFeederPark ==> b in ahead.ends)
    && (x.status == ReturnExempt ==> b in sim.finished || (x.pendingTerminal.Some? && b in ahead.checks))
    && (x.pendingTerminal.Some? ==> x.pendingTerminal.value in sim.waiting)
  }

  ghost predicate EveryoneAccounted(sim: Sim, ahead: Ahead) {
    forall b :: b in sim.store.taxis ==> Accounted(sim, ahead, b)
  }

  // ---- capacity ----

  /** How many taxis the rank of a terminal can hold, whatever number its capacity was set to. */
  function Slots(x: TerminalState): nat {
    Max(0, x.capacity)
  }

  ghost predicate RanksHold(s: State) {
    forall t :: t in s.terminals ==> Occupancy(s, t) <= Slots(s.terminals[t])
  }

  /** Every snapshot shows every terminal, none above its slots. */
  ghost predicate SnapshotsFit(sim: Sim, cast: Cast) {
    forall i :: 0 <= i < |sim.stats.snapshots| ==>
      && sim.stats.snapshots[i].occupancy.Keys == cast.terminals.Keys
      && forall t :: t in cast.terminals ==> sim.stats.snapshots[i].occupancy[t] <= Slots(cast.terminals[t])
  }

  // ---- the books ----

  function ExemptFares(stats: Stats): int {
    |stats.faresByClass| - stats.faresByClass[Standard]
  }

  /** The ways an exempt fare can end, each counted once.  `NeverFreedUp` is not one of them: it
      strikes a driver who was already counted as returned. */
  function ExemptOutcomes(stats: Stats): int {
    stats.returned + |stats.notReturnedByReason| - stats.notReturnedByReason[NeverFreedUp]
  }

  ghost predicate BooksBalance(sim: Sim, ahead: Ahead, cast: Cast) {
    && sim.stats.unmet + |sim.stats.faresByClass| + |ahead.demand| == cast.totalDemand
    && |sim.stats.faresByClass| == sim.stats.completed + |OnFareSet(sim.store)|
    && ExemptFares(sim.stats) == ExemptOutcomes(sim.stats) + |OnExemptFareSet(sim.store)|
    && |sim.stats.notReturnedByDestination| == |sim.stats.notReturnedByReason|
  }

  ghost predicate RetriesBounded(sim: Sim, ahead: Ahead) {
    && (forall b :: b in sim.retries ==> sim.retries[b] <= MAX_RETURN_RETRIES)
    && forall b :: b in ahead.checks ==> b in sim.store.taxis
  }

  ghost predicate Inv(sim: Sim, ahead: Ahead, cast: Cast) {
    && AsSetUp(sim, cast)
    && ShadowAgrees(sim)
    && FaresScheduled(sim, ahead)
    && EveryoneAccounted(sim, ahead)
    && RanksHold(sim.store)
    && SnapshotsFit(sim, cast)
    && BooksBalance(sim, ahead, cast)
    && RetriesBounded(sim, ahead)
  }

  // ---- facts about the index ----

  /** The head of the deque has been waiting longest of all on the rank. */
  lemma HeadWaitsLongest(s: State, line: seq<Badge>, t: TerminalId, b: Badge)
    requires Indexes(s, line, t) && b in Occupants(s, t)
    ensures line != [] && line[0] in Occupants(s, t) && CalledTime(s, line[0]) <= CalledTime(s, b)
  {
    assert b in Elements(line);
    var i :| 0 <= i < |line| && line[i] == b;
    assert line[0] in Elements(line);
  }

  lemma IndexUnaffected(s: State, s': State, line: seq<Badge>, t: TerminalId)
    requires Indexes(s, line, t) && s.now <= s'.now && Occupants(s', t) == Occupants(s, t)
    requires forall b :: b in Occupants(s, t) ==> CalledTime(s', b) == CalledTime(s, b)
    ensures Indexes(s', line, t)
  {
    assert forall b :: b in line ==> b in Elements(line);
  }

  lemma IndexPopped(s: State, s': State, line: seq<Badge>, t: TerminalId)
    requires Indexes(s, line, t) && line != [] && s'.now == s.now
    requires Occupants(s', t) == Occupants(s, t) - {line[0]}
    requires forall b :: b in Occupants(s', t) ==> CalledTime(s', b) == CalledTime(s, b)
    ensures Indexes(s', line[1..], t)
  {
    assert line == [line[0]] + line[1..];
    assert Elements(line[1..]) == Elements(line) - {line[0]};
    assert forall b :: b in line[1..] ==> b in Elements(line[1..]);
  }

  lemma IndexPushed(s: State, s': State, line: seq<Badge>, t: TerminalId, b: Badge)
    requires Indexes(s, line, t) && b !in Occupants(s, t) && s'.now == s.now && CalledTime(s', b) == s.now
    requires Occupants(s', t) == Occupants(s, t) + {b}
    requires forall c :: c in Occupants(s, t) ==> CalledTime(s', c) == CalledTime(s, c)
    ensures Indexes(s', line + [b], t)
  {
    assert forall c :: c in line ==> c in Elements(line);
    assert Elements(line + [b]) == Elements(line) + {b};
  }

  lemma IndexExtended(s: State, s': State, line: seq<Badge>, t: TerminalId, more: seq<Badge>)
    requires Indexes(s, line, t) && Distinct(more) && Elements(more) !! Occupants(s, t) && s'.now == s.now
    requires Occupants(s', t) == Occupants(s, t) + Elements(more)
    requires forall c :: c in Occupants(s, t) ==> CalledTime(s', c) == CalledTime(s, c)
    requires forall c :: c in more ==> CalledTime(s', c) == s.now
    ensures Indexes(s', line + more, t)
  {
    assert forall c :: c in line ==> c in Elements(line);
    assert forall c :: c in more ==> c in Elements(more);
    assert Elements(line + more) == Elements(line) + Elements(more);
    var all := line + more;
    assert forall i :: 0 <= i < |all| ==> all[i] == if i < |line| then line[i] else more[i - |line|];
    assert forall i :: 0 <= i < |line| ==> line[i] in line;
    assert forall i :: 0 <= i < |more| ==> more[i] in more;
  }

  /** Rewriting one taxi moves only that taxi between the derived sets. */
  lemma OneTaxiRewritten(s: State, s': State, b: Badge)
    requires b in s.taxis && b in s'.taxis && s'.taxis == s.taxis[b := s'.taxis[b]]
    ensures OnFareSet(s') == if s'.taxis[b].status == OnFare then OnFareSet(s) + {b} else OnFareSet(s) - {b}
  {
  }

  lemma OneTaxiOnRank(s: State, s': State, b: Badge, t: TerminalId)
    requires b in s.taxis && b in s'.taxis && s'.taxis == s.taxis[b := s'.taxis[b]]
    ensures Occupants(s', t) == if OnRank(s'.taxis[b], t) then Occupants(s, t) + {b} else Occupants(s, t) - {b}
  {
  }
}
